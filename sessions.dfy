/**
 * The tenant session registry of server.js: `clients` (tenant id to live
 * entry) and `clientInitLocks` (tenants whose initialisation is in flight),
 * the `ensureClient` orchestration, the lifecycle callbacks that rewrite an
 * entry in place, and the DELETE handler.
 *
 * `ensureClient` is asynchronous. Its synchronous prefix, up to the awaited
 * `client.initialize()`, is `Registry.EnsureClient`; the continuation after
 * `initialize` settles, with its `finally`, is `Registry.FinishInit`; the
 * continuation of a caller that found a lock is `Registry.AwaitInit`.
 * Any lifecycle event may be delivered between the first two. The
 * messaging client is an opaque handle; whether `initialize` and
 * `saveSession` succeed is a parameter.
 */
module Sessions {
  import opened Optional

  type TenantId = string

  /** An opaque client handle; the registry numbers the clients it constructs. */
  type Handle = nat

  /** An ISO timestamp read from the clock by the caller. */
  type Timestamp = string

  datatype Status = Starting | Qr | Authenticated | Ready | AuthFailure | Disconnected | InitError {
    /** The string stored in `entry.status` and in the persisted record. */
    function Name(): string {
      match this
      case Starting => "starting"
      case Qr => "qr"
      case Authenticated => "authenticated"
      case Ready => "ready"
      case AuthFailure => "auth_failure"
      case Disconnected => "disconnected"
      case InitError => "init_error"
    }
  }

  /** The lifecycle events the registry subscribes to (the `message` event is handled elsewhere). */
  datatype Event =
    | QrEvent(payload: string)
    | ReadyEvent(at: Timestamp)
    | AuthenticatedEvent
    | AuthFailureEvent(message: string)
    | DisconnectedEvent(reason: string)
  {
    /** The status each callback writes. */
    function Target(): Status {
      match this
      case QrEvent(_) => Qr
      case ReadyEvent(_) => Ready
      case AuthenticatedEvent => Authenticated
      case AuthFailureEvent(_) => AuthFailure
      case DisconnectedEvent(_) => Disconnected
    }
  }

  /** The mutable part of an entry: `{status, qr, readyAt}`. */
  datatype SessionView = SessionView(status: Status, qr: string, readyAt: Option<Timestamp>)

  /** What a fresh entry holds when it is registered. */
  const Initial := SessionView(Starting, "", None)

  /** What one lifecycle callback does to its entry. */
  function Transition(s: SessionView, ev: Event): SessionView {
    match ev
    case QrEvent(payload) => SessionView(Qr, payload, s.readyAt)
    case ReadyEvent(at) => SessionView(Ready, s.qr, Some(at))
    case AuthenticatedEvent => s.(status := Authenticated)
    case AuthFailureEvent(_) => s.(status := AuthFailure)
    case DisconnectedEvent(_) => s.(status := Disconnected)
  }

  /** The entry after a sequence of callbacks, oldest first. */
  function Replay(s: SessionView, events: seq<Event>): SessionView
    decreases |events|
  {
    if events == [] then s
    else Transition(Replay(s, events[..|events| - 1]), events[|events| - 1])
  }

  /**
   * After any non-empty sequence of events the status is the one the last
   * event writes; in particular no event leads back to `starting` or to
   * `init_error`, which only `ensureClient` writes.
   */
  lemma ReplayStatus(s: SessionView, events: seq<Event>)
    requires events != []
    ensures Replay(s, events).status == events[|events| - 1].Target()
    ensures Replay(s, events).status != Starting && Replay(s, events).status != InitError
  {
  }

  /** Without a `qr` event the pairing payload stays the initial one. */
  lemma {:induction false} ReplayQrNone(s: SessionView, events: seq<Event>)
    requires forall i :: 0 <= i < |events| ==> !events[i].QrEvent?
    ensures Replay(s, events).qr == s.qr
    decreases |events|
  {
    if events != [] {
      var init := events[..|events| - 1];
      assert forall i :: 0 <= i < |init| ==> init[i] == events[i];
      ReplayQrNone(s, init);
    }
  }

  /** The pairing payload is the one carried by the latest `qr` event, at index `i`. */
  lemma {:induction false} ReplayQrLatest(s: SessionView, events: seq<Event>, i: nat)
    requires i < |events| && events[i].QrEvent?
    requires forall j :: i < j < |events| ==> !events[j].QrEvent?
    ensures Replay(s, events).qr == events[i].payload
    decreases |events|
  {
    var n := |events| - 1;
    if i < n {
      var init := events[..n];
      assert init[i] == events[i];
      assert forall j :: i < j < |init| ==> init[j] == events[j];
      ReplayQrLatest(s, init, i);
    }
  }

  /**
   * `readyAt` is never cleared: once some `ready` event has been seen, or the
   * entry was already stamped, it stays stamped whatever follows.
   */
  lemma {:induction false} ReadyAtSticky(s: SessionView, events: seq<Event>)
    requires s.readyAt.Some? || exists i :: 0 <= i < |events| && events[i].ReadyEvent?
    ensures Replay(s, events).readyAt.Some?
    decreases |events|
  {
    if events != [] && !events[|events| - 1].ReadyEvent? {
      var init := events[..|events| - 1];
      if !s.readyAt.Some? {
        var k :| 0 <= k < |events| && events[k].ReadyEvent?;
        assert init[k] == events[k];
      }
      ReadyAtSticky(s, init);
    }
  }

  /** One tenant's registry entry, rewritten in place by its client's callbacks. */
  class Entry {
    const client: Handle
    var status: Status
    var qr: string
    var readyAt: Option<Timestamp>

    function View(): SessionView
      reads this
    {
      SessionView(status, qr, readyAt)
    }

    /** `{ client, status: 'starting', qr: '', readyAt: null }` */
    constructor (client: Handle)
      ensures this.client == client && View() == Initial
    {
      this.client := client;
      status := Starting;
      qr := "";
      readyAt := None;
    }
  }

  /** What the synchronous prefix of `ensureClient` decided. */
  datatype Ensured =
    | InvalidTenant
    | Existing(entry: Entry)
    | MustWait
    | ConstructFailed
    | Started(entry: Entry)

  /** What a caller that found a lock gets once the awaited initialisation settles. */
  datatype Waited =
    | WaitFailed
    | WaitFound(entry: Entry)
    | WaitMissing

  class Registry {
    /** `clients` */
    var clients: map<TenantId, Entry>
    /** the keys of `clientInitLocks` */
    var locks: set<TenantId>
    /** how many clients have been constructed; also the next handle */
    var constructed: nat
    /** the clients on which `destroy()` has been called (its failures are swallowed) */
    var destroyed: set<Handle>
    /** the status field of the session store's record per tenant */
    var persisted: map<TenantId, Status>

    /** Every registered client was constructed here, and no client serves two tenants. */
    ghost predicate Valid()
      reads this
    {
      && (forall t :: t in clients ==> clients[t].client < constructed)
      && (forall t, u :: t in clients && u in clients && t != u ==> clients[t].client != clients[u].client)
    }

    /**
     * No client is orphaned: every constructed client that has not been
     * destroyed is still registered for some tenant, so it is still reachable
     * by the DELETE handler and by `ensureClient`.
     */
    ghost predicate NoOrphans()
      reads this
    {
      forall h: Handle :: h < constructed && h !in destroyed ==> Registered(h)
    }

    /** Some tenant's entry holds client `h`. */
    ghost predicate Registered(h: Handle)
      reads this
    {
      exists t :: t in clients && clients[t].client == h
    }

    constructor ()
      ensures Valid() && NoOrphans()
      ensures clients == map[] && locks == {} && constructed == 0 && destroyed == {} && persisted == map[]
    {
      clients := map[];
      locks := {};
      constructed := 0;
      destroyed := {};
      persisted := map[];
    }

    /**
     * `ensureClient` up to `await client.initialize()`: an empty id is
     * rejected; a registered entry is returned as it is, even one whose
     * initialisation is still running or has failed; a tenant whose entry is
     * gone while its lock is still held must wait; otherwise the auth
     * strategy and the client are constructed. When either constructor
     * throws (`constructOk` is false), nothing is registered and the error
     * propagates; the lock is taken and released around the rejected
     * promise, so the registry is as it was and a later call starts afresh.
     * When both succeed, the `'starting'` entry is registered, and the lock is
     * taken right after `initialize` has been called, before it settles;
     * nothing else runs in between.
     */
    method EnsureClient(tenantId: TenantId, constructOk: bool) returns (r: Ensured)
      requires Valid()
      modifies this
      ensures Valid()
      ensures old(NoOrphans()) ==> NoOrphans()
      ensures tenantId == [] ==> r == InvalidTenant && unchanged(this)
      ensures tenantId != [] && tenantId in old(clients) ==>
        r == Existing(old(clients)[tenantId]) && unchanged(this)
      ensures tenantId != [] && tenantId !in old(clients) && tenantId in old(locks) ==>
        r == MustWait && unchanged(this)
      ensures tenantId != [] && tenantId !in old(clients) && tenantId !in old(locks) && !constructOk ==>
        r == ConstructFailed && unchanged(this)
      ensures tenantId != [] && tenantId !in old(clients) && tenantId !in old(locks) && constructOk ==>
        && r.Started? && fresh(r.entry)
        && r.entry.client == old(constructed) && r.entry.View() == Initial
        && clients == old(clients)[tenantId := r.entry]
        && locks == old(locks) + {tenantId}
        && constructed == old(constructed) + 1
        && destroyed == old(destroyed) && persisted == old(persisted)
    {
      if tenantId == [] {
        return InvalidTenant;
      }
      if tenantId in clients {
        return Existing(clients[tenantId]);
      }
      if tenantId in locks {
        return MustWait;
      }
      if !constructOk {
        return ConstructFailed;
      }
      ghost var before := clients;
      var entry := new Entry(constructed);
      constructed := constructed + 1;
      clients := clients[tenantId := entry];
      locks := locks + {tenantId};
      r := Started(entry);
      forall h: Handle | h < constructed && h !in destroyed && old(NoOrphans())
        ensures Registered(h)
      {
        if h == entry.client {
          assert clients[tenantId].client == h;
        } else {
          var t :| t in before && before[t].client == h;
          assert clients[t].client == h;
        }
      }
    }

    /**
     * The rest of a fresh initialisation once `initialize` settles: on failure
     * the entry's status becomes `'init_error'` (the entry stays registered)
     * and the error propagates; in both cases the lock is released.
     */
    method FinishInit(tenantId: TenantId, entry: Entry, initOk: bool) returns (r: Option<Entry>)
      requires Valid()
      modifies this, entry
      ensures Valid()
      ensures old(NoOrphans()) ==> NoOrphans()
      ensures locks == old(locks) - {tenantId}
      ensures clients == old(clients) && constructed == old(constructed)
      ensures destroyed == old(destroyed) && persisted == old(persisted)
      ensures initOk ==> r == Some(entry) && entry.View() == old(entry.View())
      ensures !initOk ==> r == None && entry.View() == old(entry.View()).(status := InitError)
    {
      if initOk {
        r := Some(entry);
      } else {
        entry.status := InitError;
        r := None;
      }
      locks := locks - {tenantId};
    }

    /**
     * The lock-wait path once the awaited initialisation settles: its failure
     * propagates; otherwise the caller gets whatever is registered now, which
     * may be nothing. `initOk` is the outcome of the initialisation being
     * awaited; the model does not tie it to the `initOk` passed to that
     * initialisation's `FinishInit`, so callers keep the two equal.
     */
    method AwaitInit(tenantId: TenantId, initOk: bool) returns (r: Waited)
      ensures !initOk ==> r == WaitFailed
      ensures initOk && tenantId in clients ==> r == WaitFound(clients[tenantId])
      ensures initOk && tenantId !in clients ==> r == WaitMissing
    {
      if !initOk {
        return WaitFailed;
      }
      if tenantId in clients {
        return WaitFound(clients[tenantId]);
      }
      return WaitMissing;
    }

    /**
     * A lifecycle callback of the client registered for `tenantId` with
     * `entry`, as written: the entry moves by `Transition` whether or not
     * `saveSession` succeeds; the store's record follows only when it does;
     * `disconnected` also destroys the client and then removes whatever entry
     * is registered for the tenant by then, which need not be `entry`.
     */
    method OnEvent(tenantId: TenantId, entry: Entry, ev: Event, saveOk: bool)
      requires Valid()
      modifies this, entry
      ensures Valid()
      ensures entry.View() == Transition(old(entry.View()), ev)
      ensures persisted == if saveOk then old(persisted)[tenantId := ev.Target()] else old(persisted)
      ensures clients == if ev.DisconnectedEvent? then old(clients) - {tenantId} else old(clients)
      ensures destroyed == if ev.DisconnectedEvent? then old(destroyed) + {entry.client} else old(destroyed)
      ensures locks == old(locks) && constructed == old(constructed)
    {
      Record(tenantId, entry, ev, saveOk);
      if ev.DisconnectedEvent? {
        destroyed := destroyed + {entry.client};
        clients := clients - {tenantId};
      }
    }

    /**
     * The lifecycle callback with the removal on `disconnected` guarded by
     * identity: the tenant's entry is removed only while it is still `entry`.
     * A late disconnect of a client that has been replaced then leaves its
     * successor registered, and no client is ever orphaned.
     */
    method OnEventChecked(tenantId: TenantId, entry: Entry, ev: Event, saveOk: bool)
      requires Valid()
      modifies this, entry
      ensures Valid()
      ensures old(NoOrphans()) ==> NoOrphans()
      ensures entry.View() == Transition(old(entry.View()), ev)
      ensures persisted == if saveOk then old(persisted)[tenantId := ev.Target()] else old(persisted)
      ensures clients ==
        if ev.DisconnectedEvent? && tenantId in old(clients) && old(clients)[tenantId] == entry
        then old(clients) - {tenantId}
        else old(clients)
      ensures destroyed == if ev.DisconnectedEvent? then old(destroyed) + {entry.client} else old(destroyed)
      ensures locks == old(locks) && constructed == old(constructed)
    {
      Record(tenantId, entry, ev, saveOk);
      if ev.DisconnectedEvent? {
        ghost var before := clients;
        destroyed := destroyed + {entry.client};
        if tenantId in clients && clients[tenantId] == entry {
          clients := clients - {tenantId};
        }
        forall h: Handle | h < constructed && h !in destroyed && old(NoOrphans())
          ensures Registered(h)
        {
          var t :| t in before && before[t].client == h;
          assert clients[t].client == h;
        }
      }
    }

    /** What every lifecycle callback does before any removal: rewrite the entry, then try to persist. */
    method Record(tenantId: TenantId, entry: Entry, ev: Event, saveOk: bool)
      modifies this, entry
      ensures entry.View() == Transition(old(entry.View()), ev)
      ensures persisted == if saveOk then old(persisted)[tenantId := ev.Target()] else old(persisted)
      ensures clients == old(clients) && destroyed == old(destroyed)
      ensures locks == old(locks) && constructed == old(constructed)
    {
      match ev {
        case QrEvent(payload) =>
          entry.qr := payload;
          entry.status := Qr;
        case ReadyEvent(at) =>
          entry.status := Ready;
          entry.readyAt := Some(at);
        case AuthenticatedEvent =>
          entry.status := Authenticated;
        case AuthFailureEvent(_) =>
          entry.status := AuthFailure;
        case DisconnectedEvent(_) =>
          entry.status := Disconnected;
      }
      if saveOk {
        persisted := persisted[tenantId := ev.Target()];
      }
    }

    /**
     * `DELETE /sessions/:tenantId`: destroys the registered client if there
     * is one, removes the entry and clears the stored record; it succeeds
     * whether or not an entry existed. An in-flight lock is left alone.
     */
    method Delete(tenantId: TenantId, clearOk: bool) returns (deleted: bool)
      requires Valid()
      modifies this
      ensures Valid()
      ensures old(NoOrphans()) ==> NoOrphans()
      ensures deleted
      ensures tenantId !in clients && clients == old(clients) - {tenantId}
      ensures destroyed ==
        if tenantId in old(clients) then old(destroyed) + {old(clients)[tenantId].client} else old(destroyed)
      ensures persisted == if clearOk then old(persisted) - {tenantId} else old(persisted)
      ensures locks == old(locks) && constructed == old(constructed)
    {
      ghost var before := clients;
      if tenantId in clients {
        destroyed := destroyed + {clients[tenantId].client};
      }
      clients := clients - {tenantId};
      if clearOk {
        persisted := persisted - {tenantId};
      }
      deleted := true;
      forall h: Handle | h < constructed && h !in destroyed && old(NoOrphans())
        ensures Registered(h)
      {
        var t :| t in before && before[t].client == h;
        assert t != tenantId && clients[t].client == h;
      }
    }
  }
}
