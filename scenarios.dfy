/**
 * Callers of the registry and the message store that rely on their contracts
 * alone: the pairing-to-ready sequence, reconnection after a disconnect, a
 * failed initialisation, a failed client construction, a DELETE while an
 * initialisation is in flight, a late disconnect of a replaced client, and
 * one inbound chat message answered by the assistant.
 */
module Scenarios {
  import opened Optional
  import opened Sessions
  import MessageLog
  import Lovable

  method PairingThenDisconnect(at: Timestamp) {
    var registry := new Registry();
    var r := registry.EnsureClient("clinicA", true);
    assert r.Started?;
    var entry := r.entry;
    registry.OnEventChecked("clinicA", entry, QrEvent("ABC123"), true);
    assert entry.status == Qr && entry.qr == "ABC123";

    // a second caller while `initialize` is still running gets the same client
    var again := registry.EnsureClient("clinicA", true);
    assert again == Existing(entry);

    var done := registry.FinishInit("clinicA", entry, true);
    assert done == Some(entry) && "clinicA" !in registry.locks;
    registry.OnEventChecked("clinicA", entry, ReadyEvent(at), true);
    assert entry.status == Ready && entry.readyAt == Some(at);
    assert registry.persisted["clinicA"] == Ready;

    // a failed saveSession does not stop the disconnect
    registry.OnEventChecked("clinicA", entry, DisconnectedEvent("LOGOUT"), false);
    assert "clinicA" !in registry.clients && entry.client in registry.destroyed;
    assert registry.persisted["clinicA"] == Ready;

    // the next request constructs a new client
    var renewed := registry.EnsureClient("clinicA", true);
    assert renewed.Started? && renewed.entry.client == 1 && renewed.entry != entry;
  }

  method FailedInitialisation() {
    var registry := new Registry();
    var r := registry.EnsureClient("clinicB", true);
    assert r.Started?;
    var entry := r.entry;
    var done := registry.FinishInit("clinicB", entry, false);
    assert done == None && entry.status == InitError && "clinicB" !in registry.locks;

    // the failed entry stays and is returned as it is: no new initialisation
    var later := registry.EnsureClient("clinicB", true);
    assert later == Existing(entry) && registry.constructed == 1;

    // DELETE twice: both succeed and leave nothing registered
    var d1 := registry.Delete("clinicB", true);
    var d2 := registry.Delete("clinicB", true);
    assert d1 && d2 && "clinicB" !in registry.clients && "clinicB" !in registry.persisted;

    var retry := registry.EnsureClient("clinicB", true);
    assert retry.Started? && registry.constructed == 2;

    var invalid := registry.EnsureClient("", true);
    assert invalid == InvalidTenant;
  }

  /**
   * A tenant whose client cannot be constructed (the auth strategy rejects
   * its id, say) gets the error, and no entry, lock or client is left behind.
   */
  method ConstructionFails() {
    var registry := new Registry();
    var r := registry.EnsureClient("clinic.a", false);
    assert r == ConstructFailed;
    assert "clinic.a" !in registry.clients && "clinic.a" !in registry.locks && registry.constructed == 0;

    // nothing stands in the way of a later attempt
    var retry := registry.EnsureClient("clinic.a", true);
    assert retry.Started? && registry.constructed == 1;
  }

  method DeleteDuringInitialisation() {
    var registry := new Registry();
    var r := registry.EnsureClient("clinicC", true);
    assert r.Started?;
    var deleted := registry.Delete("clinicC", true);

    // the entry is gone but the lock is held: the next caller waits ...
    var waiting := registry.EnsureClient("clinicC", true);
    assert waiting == MustWait;
    var done := registry.FinishInit("clinicC", r.entry, true);
    // ... and finds nothing once the initialisation succeeds
    var woken := registry.AwaitInit("clinicC", true);
    assert woken == WaitMissing;
  }

  /**
   * The `disconnected` callback as written removes by tenant id. A client
   * deleted over HTTP whose disconnect arrives after its replacement is
   * registered takes the replacement's entry with it: the replacement is
   * neither destroyed nor registered any more, and the next request builds a
   * third client beside it.
   */
  method StaleDisconnectOrphansClient() {
    var registry := new Registry();
    var first := registry.EnsureClient("clinicD", true);
    assert first.Started?;
    var done := registry.FinishInit("clinicD", first.entry, true);
    var deleted := registry.Delete("clinicD", true);
    var second := registry.EnsureClient("clinicD", true);
    assert second.Started? && second.entry.client == 1;
    done := registry.FinishInit("clinicD", second.entry, true);
    assert registry.NoOrphans();

    registry.OnEvent("clinicD", first.entry, DisconnectedEvent("NAVIGATION"), true);
    assert "clinicD" !in registry.clients && 1 !in registry.destroyed;
    assert !registry.Registered(1) && !registry.NoOrphans();

    var third := registry.EnsureClient("clinicD", true);
    assert third.Started? && third.entry.client == 2 && 1 !in registry.destroyed;
  }

  /** The same sequence with the identity-checked callback: the replacement stays registered and is reused. */
  method StaleDisconnectKeepsReplacement() {
    var registry := new Registry();
    var first := registry.EnsureClient("clinicD", true);
    assert first.Started?;
    var done := registry.FinishInit("clinicD", first.entry, true);
    var deleted := registry.Delete("clinicD", true);
    var second := registry.EnsureClient("clinicD", true);
    assert second.Started? && second.entry != first.entry;
    done := registry.FinishInit("clinicD", second.entry, true);

    registry.OnEventChecked("clinicD", first.entry, DisconnectedEvent("NAVIGATION"), true);
    assert registry.clients["clinicD"] == second.entry && registry.NoOrphans();

    var again := registry.EnsureClient("clinicD", true);
    assert again == Existing(second.entry) && registry.constructed == 2;
  }

  /**
   * A message the handler keys and `processIncomingMessage` admits, answered
   * by the assistant: it is logged with one delivered part and the reply is
   * sent to its sender; a redelivery of it does nothing.
   */
  method AnsweredChat(tenantId: string, m: Lovable.IncomingMessage, reply: string)
    requires Lovable.Admit(m).Admitted? && MessageLog.Extract(tenantId, m).key.Some?
    requires reply != []
  {
    var store := new MessageLog.Store();
    var saved := Lovable.SaveOutcome(Lovable.ConversationId("conv1"), true);
    var c := Lovable.Collaborators(saved, Lovable.Responded(200, Some(reply)), true, saved);
    assert Lovable.GetAiResponse(c.ai) == reply;
    var effects := store.HandleMessage(tenantId, m, c, MessageLog.NoFault);
    var key := MessageLog.Extract(tenantId, m).key.value;
    assert store.inbound[key] == MessageLog.Extract(tenantId, m).record;
    assert store.parts[key] == [MessageLog.Part(true)];
    assert Lovable.SendMessage(Lovable.Admit(m).from, reply) in effects;
    var again := store.HandleMessage(tenantId, m, c, MessageLog.NoFault);
    assert again == [];
  }
}
