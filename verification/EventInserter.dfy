/** Batched insertion of proxy request events: groups of sixteen rows per
    statement, literal columns for neutral groups, and reused string boxes,
    against inserting every event alone. */
module EventInserter {
  import opened Optional

  /** A value bound to a statement or stored in a column. */
  datatype Value = Null | Int(i: int) | Text(s: string)

  datatype Event = Event(
    occurredAt: int, status: int, duration: int, errorKind: string, verb: string, host: string, path: string,
    listener: Option<int>, route: Option<int>, target: Option<int>, wafRule: Option<int>, wafAction: string,
    agent: Option<int>, requestBytes: int, responseBytes: int, cacheRule: Option<int>, cacheStatus: string,
    cacheBytes: int, retryRule: Option<int>, retryCount: int, retryOutcome: string, retryErrorKind: string,
    retryFailedAgent: Option<int>)

  type Row = seq<Value>

  const GROUP: nat := 16
  const SHORT: nat := 64

  function IdValue(id: Option<int>): Value { if id.None? then Null else Int(id.value) }

  // ---- Statements ----

  /** A column of a VALUES tuple: a placeholder, or a literal. */
  datatype Column = Param | Literal(v: Value)

  type Tuple = seq<Column>

  const GENERAL: Tuple :=
    [Param, Param, Param, Param, Param, Param, Param, Param, Param, Param, Param, Param,
     Param, Param, Param, Param, Param, Param, Param, Param, Param, Param, Param]

  const NEUTRAL: Tuple :=
    [Param, Param, Param, Literal(Text("")), Param, Param, Param, Param, Param, Param, Literal(Null), Literal(Text("")),
     Literal(Null), Param, Param, Literal(Null), Param, Literal(Int(0)), Literal(Null), Literal(Int(0)),
       Literal(Text("")),
     Literal(Text("")), Literal(Null)]

  function Params(t: Tuple): nat { if t == [] then 0 else Params(t[1..]) + if t[0].Param? then 1 else 0 }

  /** The row a tuple makes of its arguments. */
  function Filled(t: Tuple, args: seq<Value>): Row
    requires |args| == Params(t)
  {
    if t == [] then []
    else if t[0].Param? then [args[0]] + Filled(t[1..], args[1..])
    else [t[0].v] + Filled(t[1..], args)
  }

  /** The rows a statement of `n` tuples inserts. */
  function Inserted(t: Tuple, n: nat, args: seq<Value>): seq<Row>
    requires |args| == n * Params(t)
  {
    if n == 0 then []
    else
      assert n * Params(t) == (n - 1) * Params(t) + Params(t);
      Inserted(t, n - 1, args[..(n - 1) * Params(t)]) + [Filled(t, args[(n - 1) * Params(t)..])]
  }

  // ---- Inserting one event ----

  function RowOf(e: Event): Row
  {
    [Int(e.occurredAt), Int(e.status), Int(e.duration), Text(e.errorKind), Text(e.verb), Text(e.host), Text(e.path),
     IdValue(e.listener), IdValue(e.route), IdValue(e.target), IdValue(e.wafRule), Text(e.wafAction), IdValue(e.agent),
     Int(e.requestBytes), Int(e.responseBytes), IdValue(e.cacheRule), Text(e.cacheStatus), Int(e.cacheBytes),
     IdValue(e.retryRule), Int(e.retryCount), Text(e.retryOutcome), Text(e.retryErrorKind), IdValue(e.retryFailedAgent)]
  }

  function RowsOf(events: seq<Event>): (rows: seq<Row>)
    ensures |rows| == |events| && forall i :: 0 <= i < |events| ==> rows[i] == RowOf(events[i])
  {
    seq(|events|, i requires 0 <= i < |events| => RowOf(events[i]))
  }

  // ---- The neutral shape ----

  predicate Neutral(e: Event)
  {
    && e.errorKind == "" && e.wafRule.None? && e.wafAction == "" && e.agent.None? && e.cacheRule.None? &&
      e.cacheBytes == 0
    && e.retryRule.None? && e.retryCount == 0 && e.retryOutcome == "" && e.retryErrorKind == "" &&
      e.retryFailedAgent.None?
  }

  function NeutralArgs(e: Event): seq<Value>
  {
    [Int(e.occurredAt), Int(e.status), Int(e.duration), Text(e.verb), Text(e.host), Text(e.path), IdValue(e.listener),
     IdValue(e.route), IdValue(e.target), Int(e.requestBytes), Int(e.responseBytes), Text(e.cacheStatus)]
  }

  lemma {:induction false} FilledGeneral(t: Tuple, args: seq<Value>)
    requires |t| == |args| && forall i :: 0 <= i < |t| ==> t[i].Param?
    ensures Params(t) == |t| && Filled(t, args) == args
  {
    if t != [] {
      FilledGeneral(t[1..], args[1..]);
      assert args == [args[0]] + args[1..];
    }
  }

  lemma {:induction false} FilledLiterals(t: Tuple, row: Row)
    requires |t| == |row| && forall i :: 0 <= i < |t| ==> t[i] == Literal(row[i])
    ensures Params(t) == 0 && Filled(t, []) == row
  {
    if t != [] {
      FilledLiterals(t[1..], row[1..]);
      assert row == [row[0]] + row[1..];
    }
  }

  lemma {:induction false} FilledJoin(t: Tuple, u: Tuple, x: seq<Value>, y: seq<Value>)
    requires |x| == Params(t) && |y| == Params(u)
    ensures Params(t + u) == Params(t) + Params(u) && Filled(t + u, x + y) == Filled(t, x) + Filled(u, y)
  {
    if t == [] {
      assert t + u == u && x + y == y;
    } else {
      assert (t + u)[1..] == t[1..] + u;
      if t[0].Param? {
        assert (x + y)[1..] == x[1..] + y;
        FilledJoin(t[1..], u, x[1..], y);
      } else {
        FilledJoin(t[1..], u, x, y);
      }
    }
  }

  /** Appends columns that are all placeholders, then columns that are literals. */
  lemma FilledRun(t: Tuple, x: seq<Value>, row: Row, params: Tuple, args: seq<Value>, literals: Tuple, constants: Row)
    requires |x| == Params(t) && Filled(t, x) == row
    requires |params| == |args| && forall i :: 0 <= i < |params| ==> params[i].Param?
    requires |literals| == |constants| && forall i :: 0 <= i < |literals| ==> literals[i] == Literal(constants[i])
    ensures |x + args| == Params(t + params + literals)
    ensures Filled(t + params + literals, x + args) == row + args + constants
  {
    FilledGeneral(params, args);
    FilledLiterals(literals, constants);
    FilledJoin(t, params, x, args);
    FilledJoin(t + params, literals, x + args, []);
    assert x + args + [] == x + args;
  }

  /** The first `n` columns of a neutral event, from its first `k` arguments. */
  ghost predicate NeutralUpTo(e: Event, n: nat, k: nat)
  {
    && n <= |NEUTRAL| && k <= |NeutralArgs(e)| && n <= |RowOf(e)|
    && Params(NEUTRAL[..n]) == k && Filled(NEUTRAL[..n], NeutralArgs(e)[..k]) == RowOf(e)[..n]
  }

  lemma NeutralOn(e: Event, n: nat, k: nat, m: nat, end: nat)
    requires n + m <= end <= |NEUTRAL| == |RowOf(e)| && k + m <= |NeutralArgs(e)| && NeutralUpTo(e, n, k)
    requires forall i :: n <= i < n + m ==> NEUTRAL[i].Param? && NeutralArgs(e)[k + i - n] == RowOf(e)[i]
    requires forall i :: n + m <= i < end ==> NEUTRAL[i] == Literal(RowOf(e)[i])
    ensures NeutralUpTo(e, end, k + m)
  {
    hide Filled, Params, RowOf, NeutralArgs;
    var t, a, r := NEUTRAL, NeutralArgs(e), RowOf(e);
    FilledRun(t[..n], a[..k], r[..n], t[n..n + m], a[k..k + m], t[n + m..end], r[n + m..end]);
    assert t[..n] + t[n..n + m] + t[n + m..end] == t[..end];
    assert a[..k] + a[k..k + m] == a[..k + m];
    assert a[k..k + m] == r[n..n + m];
    assert r[..n] + r[n..n + m] + r[n + m..end] == r[..end];
  }

  lemma NeutralSizes(e: Event)
    ensures |NEUTRAL| == |RowOf(e)| == 23 && |NeutralArgs(e)| == 12
  {
  }

  lemma NeutralStart(e: Event)
    ensures NeutralUpTo(e, 0, 0)
  {
    assert NEUTRAL[..0] == [] && NeutralArgs(e)[..0] == [] && RowOf(e)[..0] == [];
  }

  lemma NeutralFirst(e: Event)
    requires Neutral(e)
    ensures forall i :: 0 <= i < 3 ==> NEUTRAL[i].Param? && NeutralArgs(e)[i] == RowOf(e)[i]
    ensures forall i :: 3 <= i < 4 ==> NEUTRAL[i] == Literal(RowOf(e)[i])
    ensures forall i :: 4 <= i < 10 ==> NEUTRAL[i].Param? && NeutralArgs(e)[i - 1] == RowOf(e)[i]
    ensures forall i :: 10 <= i < 13 ==> NEUTRAL[i] == Literal(RowOf(e)[i])
  {
  }

  lemma NeutralLast(e: Event)
    requires Neutral(e)
    ensures forall i :: 13 <= i < 15 ==> NEUTRAL[i].Param? && NeutralArgs(e)[i - 4] == RowOf(e)[i]
    ensures forall i :: 15 <= i < 16 ==> NEUTRAL[i] == Literal(RowOf(e)[i])
    ensures forall i :: 16 <= i < 17 ==> NEUTRAL[i].Param? && NeutralArgs(e)[i - 5] == RowOf(e)[i]
    ensures forall i :: 17 <= i < 23 ==> NEUTRAL[i] == Literal(RowOf(e)[i])
  {
  }

  /** For a neutral event the literal columns hold exactly its own values. */
  lemma NeutralRow(e: Event)
    requires Neutral(e)
    ensures Params(NEUTRAL) == |NeutralArgs(e)| && Filled(NEUTRAL, NeutralArgs(e)) == RowOf(e)
  {
    hide *;
    NeutralSizes(e);
    NeutralStart(e);
    NeutralFirst(e);
    NeutralLast(e);
    NeutralOn(e, 0, 0, 3, 4);
    NeutralOn(e, 4, 3, 6, 13);
    NeutralOn(e, 13, 9, 2, 16);
    NeutralOn(e, 16, 11, 1, 23);
    NeutralAll(e);
  }

  lemma NeutralAll(e: Event)
    requires NeutralUpTo(e, 23, 12)
    ensures Params(NEUTRAL) == |NeutralArgs(e)| && Filled(NEUTRAL, NeutralArgs(e)) == RowOf(e)
  {
    hide Filled, Params, RowOf, NeutralArgs;
    NeutralSizes(e);
    assert NEUTRAL[..23] == NEUTRAL && NeutralArgs(e)[..12] == NeutralArgs(e) && RowOf(e)[..23] == RowOf(e);
  }

  lemma GeneralRow(e: Event)
    ensures Params(GENERAL) == |RowOf(e)| && Filled(GENERAL, RowOf(e)) == RowOf(e)
  {
    FilledGeneral(GENERAL, RowOf(e));
  }

  /** The arguments one event contributes to a statement of shape `t`. */
  function ArgsOf(neutral: bool, e: Event): seq<Value> { if neutral then NeutralArgs(e) else RowOf(e) }

  function Shape(neutral: bool): Tuple { if neutral then NEUTRAL else GENERAL }

  lemma ShapeRow(neutral: bool, e: Event)
    requires neutral ==> Neutral(e)
    ensures Params(Shape(neutral)) == |ArgsOf(neutral, e)| && Filled(Shape(neutral), ArgsOf(neutral, e)) == RowOf(e)
  {
    hide Params, Filled, RowOf, NeutralArgs;
    if neutral { NeutralRow(e); } else { GeneralRow(e); }
  }

  lemma InsertedOneMore(t: Tuple, n: nat, args: seq<Value>, more: seq<Value>)
    requires |args| == n * Params(t) && |more| == Params(t)
    ensures |args + more| == (n + 1) * Params(t) &&
      Inserted(t, n + 1, args + more) == Inserted(t, n, args) + [Filled(t, more)]
  {
    hide Params, Filled;
    assert (n + 1) * Params(t) == n * Params(t) + Params(t);
    assert (args + more)[..n * Params(t)] == args && (args + more)[n * Params(t)..] == more;
  }

  // ---- Reused string boxes ----

  /** The last short string and the value boxed for it. */
  datatype Slot = Slot(value: string, boxed: Option<Value>)

  ghost predicate SlotsOk(slots: array<Slot>)
    reads slots
  {
    slots.Length == 4 && forall k :: 0 <= k < 4 && slots[k].boxed.Some? ==> slots[k].boxed.value == Text(slots[k].value)
  }

  /** A boxed string is always the string asked for. */
  method Box(slots: array<Slot>, k: nat, value: string) returns (v: Value)
    requires SlotsOk(slots) && k < 4
    modifies slots
    ensures SlotsOk(slots) && v == Text(value)
  {
    if |value| > SHORT {
      return Text(value);
    }
    if slots[k].boxed.None? || value != slots[k].value {
      slots[k] := Slot(value, Some(Text(value)));
    }
    return slots[k].boxed.value;
  }

  method BindGeneral(slots: array<Slot>, e: Event) returns (args: seq<Value>)
    requires SlotsOk(slots)
    modifies slots
    ensures SlotsOk(slots) && args == RowOf(e)
  {
    var verb := Box(slots, 0, e.verb);
    var host := Box(slots, 1, e.host);
    var path := Box(slots, 2, e.path);
    var cache := Box(slots, 3, e.cacheStatus);
    args := [Int(e.occurredAt), Int(e.status), Int(e.duration), Text(e.errorKind), verb, host, path,
             IdValue(e.listener), IdValue(e.route), IdValue(e.target), IdValue(e.wafRule), Text(e.wafAction),
               IdValue(e.agent),
             Int(e.requestBytes), Int(e.responseBytes), IdValue(e.cacheRule), cache, Int(e.cacheBytes),
             IdValue(e.retryRule), Int(e.retryCount), Text(e.retryOutcome), Text(e.retryErrorKind),
               IdValue(e.retryFailedAgent)];
  }

  method BindNeutral(slots: array<Slot>, e: Event) returns (args: seq<Value>)
    requires SlotsOk(slots)
    modifies slots
    ensures SlotsOk(slots) && args == NeutralArgs(e)
  {
    var verb := Box(slots, 0, e.verb);
    var host := Box(slots, 1, e.host);
    var path := Box(slots, 2, e.path);
    var cache := Box(slots, 3, e.cacheStatus);
    args := [Int(e.occurredAt), Int(e.status), Int(e.duration), verb, host, path, IdValue(e.listener),
             IdValue(e.route), IdValue(e.target), Int(e.requestBytes), Int(e.responseBytes), cache];
  }

  method AreNeutral(events: seq<Event>) returns (neutral: bool)
    ensures neutral <==> forall i :: 0 <= i < |events| ==> Neutral(events[i])
  {
    for i := 0 to |events|
      invariant forall j :: 0 <= j < i ==> Neutral(events[j])
    {
      if !Neutral(events[i]) {
        return false;
      }
    }
    return true;
  }

  /** The arguments of a whole group, and what they insert. */
  method BindGroup(slots: array<Slot>, group: seq<Event>, neutral: bool) returns (args: seq<Value>)
    requires SlotsOk(slots) && (neutral ==> forall i :: 0 <= i < |group| ==> Neutral(group[i]))
    modifies slots
    ensures SlotsOk(slots)
    ensures |args| == |group| * Params(Shape(neutral)) && Inserted(Shape(neutral), |group|, args) == RowsOf(group)
  {
    hide Params, Filled, Inserted, RowOf, NeutralArgs, Shape, Neutral, SlotsOk;
    args := [];
    NothingInserted(Shape(neutral));
    for i := 0 to |group|
      invariant SlotsOk(slots)
      invariant |args| == i * Params(Shape(neutral)) && Inserted(Shape(neutral), i, args) == RowsOf(group[..i])
    {
      var more;
      if neutral {
        more := BindNeutral(slots, group[i]);
      } else {
        more := BindGeneral(slots, group[i]);
      }
      ShapeRow(neutral, group[i]);
      InsertedOneMore(Shape(neutral), i, args, more);
      assert RowsOf(group[..i + 1]) == RowsOf(group[..i]) + [RowOf(group[i])];
      args := args + more;
    }
    assert group[..|group|] == group;
  }

  lemma NothingInserted(t: Tuple)
    ensures Inserted(t, 0, []) == []
  {
  }

  // ---- The inserter ----

  /** Statements are prepared once, when first needed. */
  class Inserter {
    var table: seq<Row>
    var batch: Option<Tuple>
    var neutralBatch: Option<Tuple>

    /** How many statements failed to prepare or to execute so far. */
    ghost var failures: nat

    ghost predicate Valid()
      reads this
    {
      (batch.None? || batch == Some(GENERAL)) && (neutralBatch.None? || neutralBatch == Some(NEUTRAL))
    }

    constructor ()
      ensures Valid() && table == [] && failures == 0
    {
      table, batch, neutralBatch := [], None, None;
      failures := 0;
    }

    /** A statement appends all its rows, or fails and appends none. */
    method Execute(t: Tuple, n: nat, args: seq<Value>) returns (ok: bool)
      requires |args| == n * Params(t)
      modifies this`table, this`failures
      ensures table == if ok then old(table) + Inserted(t, n, args) else old(table)
      ensures failures == old(failures) + if ok then 0 else 1
    {
      ok := *;
      if ok {
        table := table + Inserted(t, n, args);
      } else {
        failures := failures + 1;
      }
    }

    /** The simple form: one row, the event's own. */
    method Insert(e: Event) returns (ok: bool)
      modifies this`table, this`failures
      ensures table == if ok then old(table) + [RowOf(e)] else old(table)
      ensures failures == old(failures) + if ok then 0 else 1
    {
      hide Params, Filled, Inserted, RowOf;
      var args := RowOf(e);
      GeneralRow(e);
      InsertedOneMore(GENERAL, 0, [], args);
      NothingInserted(GENERAL);
      assert [] + args == args && [] + [RowOf(e)] == [RowOf(e)];
      ok := Execute(GENERAL, 1, args);
    }

    /** The statement for a shape, prepared on first use; preparing may fail. */
    method Prepare(neutral: bool) returns (t: Option<Tuple>)
      requires Valid()
      modifies this`batch, this`neutralBatch, this`failures
      ensures Valid() && (t.Some? ==> t.value == Shape(neutral))
      ensures failures == old(failures) + if t.Some? then 0 else 1
    {
      t := if neutral then neutralBatch else batch;
      if t.None? {
        var ok := *;
        if !ok {
          failures := failures + 1;
          return None;
        }
        t := Some(if neutral then NEUTRAL else GENERAL);
        if neutral {
          neutralBatch := t;
        } else {
          batch := t;
        }
      }
    }

    method InsertGroup(slots: array<Slot>, group: seq<Event>) returns (ok: bool)
      requires Valid() && SlotsOk(slots)
      modifies this, slots
      ensures Valid() && SlotsOk(slots) && table == if ok then old(table) + RowsOf(group) else old(table)
      ensures failures == old(failures) + if ok then 0 else 1
    {
      hide Params, Filled, Inserted, RowOf, Shape, SlotsOk, Neutral;
      var neutral := AreNeutral(group);
      var statement := Prepare(neutral);
      if statement.None? {
        return false;
      }
      var args := BindGroup(slots, group, neutral);
      ok := Execute(statement.value, |group|, args);
    }

    /** One statement for each event, up to the first that fails. */
    method InsertEach(events: seq<Event>) returns (ok: bool, ghost done: nat)
      modifies this`table, this`failures
      ensures done <= |events| && table == old(table) + RowsOf(events[..done]) && (ok ==> done == |events|)
      ensures failures == old(failures) + if ok then 0 else 1
    {
      hide RowOf, RowsOf;
      NoRows();
      done := 0;
      assert events[..0] == [];
      for i := 0 to |events|
        invariant done == i && failures == old(failures) && table == old(table) + RowsOf(events[..done])
      {
        ok := Insert(events[i]);
        if !ok {
          return;
        }
        RowsJoin(events, done, done + 1);
        OneRow(events[i]);
        assert events[done..done + 1] == [events[i]];
        done := done + 1;
      }
      ok := true;
    }

    /** Groups of sixteen, as long as there are that many. */
    method InsertGroups(events: seq<Event>) returns (ok: bool, done: nat)
      requires Valid()
      modifies this
      ensures Valid() && done <= |events| && table == old(table) + RowsOf(events[..done])
      ensures ok ==> |events| - done < GROUP
      ensures failures == old(failures) + if ok then 0 else 1
    {
      hide RowOf, SlotsOk, RowsOf;
      NoRows();
      done := 0;
      assert events[..0] == [];
      var slots := NewSlots();
      while |events| - done >= GROUP
        invariant Valid() && SlotsOk(slots) && fresh(slots) && failures == old(failures)
        invariant done <= |events| && table == old(table) + RowsOf(events[..done])
      {
        ok := InsertGroup(slots, events[done..done + GROUP]);
        if !ok {
          return;
        }
        RowsJoin(events, done, done + GROUP);
        done := done + GROUP;
      }
      ok := true;
    }

    /** Groups of sixteen, then the remainder one by one: on success exactly the
        rows of inserting each event alone, in order; on failure a prefix.  It
        succeeds unless a statement fails, and stops at the first that does. */
    method InsertBatch(events: seq<Event>) returns (ok: bool, ghost done: nat)
      requires Valid()
      modifies this
      ensures Valid() && done <= |events| && table == old(table) + RowsOf(events[..done])
      ensures ok ==> done == |events| && table == old(table) + RowsOf(events)
      ensures failures == old(failures) + if ok then 0 else 1
    {
      hide RowOf, RowsOf;
      NoRows();
      assert events[..0] == [];
      var grouped := 0;
      if |events| >= GROUP {
        ok, grouped := InsertGroups(events);
        if !ok {
          done := grouped;
          return;
        }
      }
      ghost var more;
      ok, more := InsertEach(events[grouped..]);
      assert events[grouped..][..more] == events[grouped..grouped + more];
      RowsJoin(events, grouped, grouped + more);
      done := grouped + more;
      assert ok ==> events[..done] == events;
    }
  }

  method NewSlots() returns (slots: array<Slot>)
    ensures SlotsOk(slots) && fresh(slots)
  {
    slots := new Slot[4](i => Slot("", None));
  }

  lemma NoRows()
    ensures RowsOf([]) == []
  {
  }

  lemma OneRow(e: Event)
    ensures RowsOf([e]) == [RowOf(e)]
  {
  }

  lemma RowsJoin(events: seq<Event>, i: nat, j: nat)
    requires i <= j <= |events|
    ensures RowsOf(events[..j]) == RowsOf(events[..i]) + RowsOf(events[i..j])
  {
    hide RowOf;
  }
}
