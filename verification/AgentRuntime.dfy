/** The agent's capacity runtime: counters and accounts changed in place under
    its lock, with reservations and release functions that fire once.  The
    resource sample a call reads is an argument. */
module AgentRuntime {
  import opened Optional
  import opened AdmissionLimit
  import opened AgentLedger
  import opened Widths

  class Runtime {
    const controlled: bool
    var maximum: int
    var inUse: int
    var controlInUse: int
    var reservedSlots: int
    var accounts: Accounts
    var sessions: map<nat, Session>
    var owned: map<nat, Owned>
    var streams: set<nat>
    var controls: map<nat, nat>
    var next: nat

    function View(): Ledger
      reads this
    {
      Ledger(controlled, maximum, inUse, controlInUse, reservedSlots, accounts, sessions, owned, streams, controls,
        next)
    }

    constructor (limit: int, withController: bool)
      ensures View() == NewLedger(limit, withController) && Valid(View())
    {
      hide Valid;
      controlled := withController;
      maximum := ClampMaximum(limit);
      inUse, controlInUse, reservedSlots := 0, 0, 0;
      accounts := NO_BYTES;
      sessions, owned, streams, controls, next := map[], map[], {}, map[], 0;
      new;
      NewLedgerValid(limit, withController);
    }

    method SetMaximum(limit: int)
      requires Valid(View())
      modifies this`maximum
      ensures Valid(View()) && View() == if limit < 1 then old(View()) else Apply(old(View()), MaximumSet(limit))
    {
      hide Valid;
      if limit < 1 {
        return;
      }
      ApplyValid(View(), MaximumSet(limit), NO_SAMPLE);
      maximum := ClampMaximum(limit);
    }

    /** Prepays a control session's memory and stream slots, or neither. */
    method TryReserveSession(bytes: int, slots: int, sample: Snapshot) returns (id: Option<nat>)
      requires Valid(View())
      modifies this`accounts, this`reservedSlots, this`sessions, this`next
      ensures Valid(View())
      ensures id.Some? <==> MayReserveSession(old(View()), sample, bytes, slots)
      ensures View() == if id.None? then old(View()) else Apply(old(View()), SessionReserved(bytes, slots))
      ensures id.Some? ==> id.value in sessions && id.value !in old(sessions)
    {
      hide Valid, LimitWithExternal;
      if bytes < 0 || slots < 1 || slots > CONTROL_LIMIT {
        return None;
      }
      NothingOverflows(View());
      var external := accounts.window + accounts.session;
      if bytes > MAX_INT64 - external {
        return None;
      }
      var proposed := inUse + reservedSlots + slots;
      if proposed > MAX_STREAMS {
        return None;
      }
      if controlled && (sample.rejectNew || LimitWithExternal(sample, external + bytes, 0) < proposed) {
        return None;
      }
      ApplyValid(View(), SessionReserved(bytes, slots), sample);
      id := Some(next);
      accounts := accounts.(session := accounts.session + bytes, control := accounts.control + bytes);
      reservedSlots := reservedSlots + slots;
      sessions := sessions[next := Session(bytes, slots, 0)];
      next := next + 1;
    }

    /** Shrinks an idle session's promise to what was negotiated. */
    method Activate(id: nat, limit: int, bytes: int, slots: int) returns (ok: bool)
      requires Valid(View())
      modifies this`accounts, this`reservedSlots, this`sessions, this`maximum
      ensures Valid(View())
      ensures ok <==> MayActivate(old(View()), id, limit, bytes, slots)
      ensures View() == if ok then Apply(old(View()), SessionActivated(id, limit, bytes, slots)) else old(View())
    {
      hide Valid;
      if limit < 1 || bytes < 0 || slots < 1 || slots > CONTROL_LIMIT || id !in sessions {
        return false;
      }
      var s := sessions[id];
      if s.active != 0 || slots > s.slots || bytes > s.bytes || slots > ClampMaximum(limit) {
        return false;
      }
      ApplyValid(View(), SessionActivated(id, limit, bytes, slots), NO_SAMPLE);
      accounts := accounts.(session := accounts.session - (s.bytes - bytes),
        control := accounts.control - (s.bytes - bytes));
      reservedSlots := reservedSlots - (s.slots - slots);
      sessions := sessions[id := s.(bytes := bytes, slots := slots)];
      maximum := ClampMaximum(limit);
      return true;
    }

    /** Returns a session's whole promise once, and only when it is idle. */
    method ReleaseSession(id: nat) returns (ok: bool)
      requires Valid(View())
      modifies this`accounts, this`reservedSlots, this`sessions
      ensures Valid(View())
      ensures ok <==> id in old(sessions) && old(sessions)[id].active == 0
      ensures View() == if ok then Apply(old(View()), SessionReleased(id)) else old(View())
    {
      hide Valid;
      if id !in sessions || sessions[id].active != 0 {
        return false;
      }
      ApplyValid(View(), SessionReleased(id), NO_SAMPLE);
      var s := sessions[id];
      accounts := accounts.(session := accounts.session - s.bytes, control := accounts.control - s.bytes);
      reservedSlots := reservedSlots - s.slots;
      sessions := sessions - {id};
      return true;
    }

    method TryOpenControl(id: nat) returns (handle: Option<nat>)
      requires Valid(View())
      modifies this`sessions, this`controlInUse, this`controls, this`next
      ensures Valid(View())
      ensures handle.Some? <==> MayOpenControl(old(View()), id)
      ensures View() == if handle.None? then old(View()) else Apply(old(View()), ControlOpened(id))
      ensures handle.Some? ==> handle.value in controls
    {
      hide Valid;
      if id !in sessions || sessions[id].active >= sessions[id].slots ||
        controlInUse >= Min(CONTROL_LIMIT, maximum) || inUse + controlInUse >= maximum {
        return None;
      }
      ApplyValid(View(), ControlOpened(id), NO_SAMPLE);
      handle := Some(next);
      sessions := sessions[id := sessions[id].(active := sessions[id].active + 1)];
      controlInUse := controlInUse + 1;
      controls := controls[next := id];
      next := next + 1;
    }

    /** The release function of a control stream; a second call does nothing. */
    method CloseControl(handle: nat)
      requires Valid(View())
      modifies this`sessions, this`controlInUse, this`controls
      ensures Valid(View()) && handle !in controls
      ensures handle in old(controls) ==> old(controls)[handle] in old(sessions)
      ensures View() == if handle in old(controls) then Apply(old(View()), ControlClosed(handle)) else old(View())
    {
      hide Valid;
      if handle !in controls {
        return;
      }
      ControlIsOpen(View(), handle);
      ApplyValid(View(), ControlClosed(handle), NO_SAMPLE);
      var id := controls[handle];
      var s := sessions[id];
      if s.active > 0 {
        s := s.(active := s.active - 1);
      }
      sessions := sessions[id := s];
      if controlInUse > 0 {
        controlInUse := controlInUse - 1;
      }
      controls := controls - {handle};
    }

    /** Reserves receive memory for an owner; without a controller nothing is
        recorded and nothing is refused. */
    method TryOwn(owner: Owner, bytes: int, sample: Snapshot) returns (ok: bool, id: Option<nat>)
      requires Valid(View())
      modifies this`accounts, this`owned, this`next
      ensures Valid(View())
      ensures ok <==> !controlled || MayOwn(old(View()), sample, bytes)
      ensures id.Some? <==> ok && controlled
      ensures View() == if id.None? then old(View()) else Apply(old(View()), ResourceOwned(owner, bytes))
      ensures id.Some? ==> id.value == old(next) && id.value in owned && id.value !in old(owned)
    {
      hide Valid, LimitWithExternal;
      if !controlled {
        return true, None;
      }
      NothingOverflows(View());
      NextIsNew(View());
      if bytes < 0 {
        return false, None;
      }
      var external := accounts.window + accounts.session;
      if bytes > MAX_INT64 - external {
        return false, None;
      }
      if sample.rejectNew || LimitWithExternal(sample, external + bytes, 0) < inUse + reservedSlots {
        return false, None;
      }
      ApplyValid(View(), ResourceOwned(owner, bytes), sample);
      id := Some(next);
      match owner {
        case StreamGrowth => accounts := accounts.(window := accounts.window + bytes);
        case InitialPool =>
          accounts := accounts.(session := accounts.session + bytes, initialPool := accounts.initialPool + bytes);
        case GrowthPool =>
          accounts := accounts.(session := accounts.session + bytes, growthPool := accounts.growthPool + bytes);
        case SessionMetadata =>
          accounts := accounts.(session := accounts.session + bytes, metadata := accounts.metadata + bytes);
        case ControlSupplement =>
          accounts := accounts.(session := accounts.session + bytes, control := accounts.control + bytes);
        case SessionEnvelope =>
          accounts := accounts.(session := accounts.session + bytes, envelope := accounts.envelope + bytes);
        case StreamSupplement =>
          accounts := accounts.(window := accounts.window + bytes, supplement := accounts.supplement + bytes);
      }
      owned := owned[next := Owned(owner, bytes)];
      next := next + 1;
      ok := true;
    }

    method Disown(id: nat)
      requires Valid(View())
      modifies this`accounts, this`owned
      ensures Valid(View()) && id !in owned
      ensures View() == if id in old(owned) then Apply(old(View()), ResourceReleased(id)) else old(View())
    {
      hide Valid;
      if id !in owned {
        return;
      }
      ApplyValid(View(), ResourceReleased(id), NO_SAMPLE);
      var bytes := owned[id].bytes;
      match owned[id].owner {
        case StreamGrowth => accounts := accounts.(window := accounts.window - bytes);
        case InitialPool =>
          accounts := accounts.(session := accounts.session - bytes, initialPool := accounts.initialPool - bytes);
        case GrowthPool =>
          accounts := accounts.(session := accounts.session - bytes, growthPool := accounts.growthPool - bytes);
        case SessionMetadata =>
          accounts := accounts.(session := accounts.session - bytes, metadata := accounts.metadata - bytes);
        case ControlSupplement =>
          accounts := accounts.(session := accounts.session - bytes, control := accounts.control - bytes);
        case SessionEnvelope =>
          accounts := accounts.(session := accounts.session - bytes, envelope := accounts.envelope - bytes);
        case StreamSupplement =>
          accounts := accounts.(window := accounts.window - bytes, supplement := accounts.supplement - bytes);
      }
      owned := owned - {id};
    }

    /** Pool and metadata of a session together: if the second is refused the
        first is undone, and nothing but the numbering has moved. */
    method TryOwnPair(pool: int, metadata: int, sample: Snapshot, second: Snapshot) returns (ok: bool, ids: seq<nat>)
      requires Valid(View())
      modifies this`accounts, this`owned, this`next
      ensures Valid(View())
      ensures !ok ==> View() == old(View()).(next := next)
      ensures ok && controlled ==>
        |ids| == 2 && owned ==
          old(owned)[ids[0] := Owned(InitialPool, pool)][ids[1] := Owned(SessionMetadata, metadata)]
      ensures ok && controlled ==> External(View()) == External(old(View())) + pool + metadata
    {
      hide Valid, LimitWithExternal;
      ids := [];
      var a: Option<nat>, b: Option<nat>;
      ok, a := TryOwn(InitialPool, pool, sample);
      if !ok {
        return;
      }
      ok, b := TryOwn(SessionMetadata, metadata, second);
      if !ok {
        if a.Some? {
          Disown(a.value);
          assert owned == old(owned);
        }
        return;
      }
      if a.Some? && b.Some? {
        ids := [a.value, b.value];
      }
    }

    /** Opens an ordinary stream if the structural and the sampled limit allow. */
    method TryOpen(sample: Snapshot) returns (handle: Option<nat>)
      requires Valid(View())
      modifies this`inUse, this`streams, this`next
      ensures Valid(View())
      ensures handle.Some? <==> MayOpen(old(View()), sample)
      ensures View() == if handle.None? then old(View()) else Apply(old(View()), StreamOpened)
      ensures handle.Some? ==> handle.value in streams && handle.value !in old(streams)
    {
      hide Valid, OrdinaryLimit;
      if inUse + controlInUse >= maximum || inUse >= OrdinaryLimit(View(), sample) {
        return None;
      }
      NextIsNew(View());
      ApplyValid(View(), StreamOpened, sample);
      handle := Some(next);
      inUse := inUse + 1;
      streams := streams + {next};
      next := next + 1;
    }

    method Close(handle: nat)
      requires Valid(View())
      modifies this`inUse, this`streams
      ensures Valid(View()) && handle !in streams
      ensures View() == if handle in old(streams) then Apply(old(View()), StreamClosed(handle)) else old(View())
    {
      hide Valid;
      if handle !in streams {
        return;
      }
      ApplyValid(View(), StreamClosed(handle), NO_SAMPLE);
      if inUse > 0 {
        inUse := inUse - 1;
      }
      streams := streams - {handle};
    }
  }

  lemma NothingOverflows(l: Ledger)
    requires Valid(l)
    ensures 0 <= l.accounts.window && 0 <= l.accounts.session && External(l) <= MAX_INT64 && l.next !in l.sessions
  {
    Covered(l);
  }

  lemma NextIsNew(l: Ledger)
    requires Valid(l)
    ensures l.next !in l.owned && l.next !in l.streams
  {
    hide AccountsExact, SessionsOk, CountsExact;
  }

  lemma ControlIsOpen(l: Ledger, handle: nat)
    requires Valid(l) && handle in l.controls
    ensures l.controls[handle] in l.sessions
  {
    hide AccountsExact, IdsOk, CountsExact;
  }
}
