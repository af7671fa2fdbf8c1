/**
 * PutProvider and PutTemplate: a row read, checked and written back under its version. For one identity
 * (tenant, application and code, or template key); rows of different identities do not meet.
 */
module Registers {
  import opened Results

  /** The row of one identity: what an update may change is the body, the rest is fixed by the insert. */
  datatype Row<V> = Row(id: nat, version: int, body: V, createdAt: int, createdBy: string, updatedAt: int,
                        updatedBy: string)

  /** The two callers differ in what they check between read and write. */
  datatype Policy = Providers | Templates

  /** A Put between its read and its write. */
  datatype Put<V> = Put(read: Option<Row<V>>, expected: int, body: V, id: nat, now: int, actor: string)

  /** PutProvider compares the version it read; PutTemplate leaves that to the UPDATE. */
  predicate Refused<V>(policy: Policy, p: Put<V>) {
    policy == Providers &&
    match p.read
    case None => p.expected != 0
    case Some(row) => p.expected <= 0 || p.expected != row.version
  }

  /** The row after its UPDATE. */
  function Updated<V>(row: Row<V>, body: V, now: int, actor: string): Row<V> {
    row.(body := body, version := row.version + 1, updatedAt := now, updatedBy := actor)
  }

  /** The write: an INSERT the unique constraint may reject, or an UPDATE ... WHERE id=? AND version=?. */
  function Write<V>(row: Option<Row<V>>, p: Put<V>): Result<Row<V>> {
    match p.read
    case None =>
      if row.Some? then Failure(Duplicate)
      else Success(Row(p.id, 1, p.body, p.now, p.actor, p.now, p.actor))
    case Some(read) =>
      if row == None || row.value.id != read.id || row.value.version != p.expected then Failure(StaleVersion)
      else Success(Updated(row.value, p.body, p.now, p.actor))
  }

  /** What the caller gets back, computed from its own read. */
  function Returned<V>(p: Put<V>): Row<V> {
    match p.read
    case None => Row(p.id, 1, p.body, p.now, p.actor, p.now, p.actor)
    case Some(read) => read.(body := p.body, version := p.expected + 1, updatedAt := p.now, updatedBy := p.actor)
  }

  // ----- the abstract register

  /** Version 0 is the empty register. */
  datatype Register<V> = Register(version: int, body: Option<V>)

  function Cas<V>(r: Register<V>, expected: int, body: V): Option<Register<V>> {
    if r.version == expected then Some(Register(expected + 1, Some(body))) else None
  }

  function Abstract<V>(row: Option<Row<V>>): Register<V> {
    match row
    case None => Register(0, None)
    case Some(r) => Register(r.version, Some(r.body))
  }

  /** The version a Put really competes with: an insert always competes with the empty register. */
  function Competes<V>(p: Put<V>): int {
    if p.read == None then 0 else p.expected
  }

  // ----- all interleavings

  /** `wins` records, oldest first, the version each successful write competed with. */
  datatype State<V> = State(row: Option<Row<V>>, puts: map<nat, Put<V>>, wins: seq<int>)

  datatype Step<V> = Read(k: nat, put: Put<V>) | Commit(k: nat) | Drop(k: nat)

  predicate Enabled<V(==)>(policy: Policy, s: State<V>, a: Step<V>) {
    match a
    case Read(k, put) => k !in s.puts && put.read == s.row && !Refused(policy, put)
    case Commit(k) => k in s.puts && Write(s.row, s.puts[k]).Success?
    case Drop(k) => k in s.puts
  }

  function Apply<V(==)>(policy: Policy, s: State<V>, a: Step<V>): State<V>
    requires Enabled(policy, s, a)
  {
    match a
    case Read(k, put) => s.(puts := s.puts[k := put])
    case Commit(k) => State(Some(Write(s.row, s.puts[k]).value), s.puts - {k}, s.wins + [Competes(s.puts[k])])
    case Drop(k) => s.(puts := s.puts - {k})
  }

  ghost function Exec<V>(policy: Policy, s: State<V>, acts: seq<Step<V>>): Option<State<V>> {
    if acts == [] then Some(s)
    else
      var last := |acts| - 1;
      match Exec(policy, s, acts[..last])
      case None => None
      case Some(mid) => if Enabled(policy, mid, acts[last]) then Some(Apply(policy, mid, acts[last])) else None
  }

  ghost predicate Reachable<V(!new)>(policy: Policy, s: State<V>) {
    exists acts :: Exec(policy, State(None, map[], []), acts) == Some(s)
  }

  /** A row keeps its identity columns; versions only grow; the wins count up from zero. */
  ghost predicate Inv<V>(s: State<V>) {
    && |s.wins| == Abstract(s.row).version
    && (s.row.Some? ==> s.row.value.version >= 1)
    && (forall i | 0 <= i < |s.wins| :: s.wins[i] == i)
    && (forall k | k in s.puts && s.puts[k].read.Some? ::
          && s.row.Some?
          && s.row.value.id == s.puts[k].read.value.id
          && s.row.value.createdAt == s.puts[k].read.value.createdAt
          && s.row.value.createdBy == s.puts[k].read.value.createdBy
          && s.row.value.version >= s.puts[k].read.value.version >= 1)
  }

  lemma StepInv<V>(policy: Policy, s: State<V>, a: Step<V>)
    requires Inv(s) && Enabled(policy, s, a)
    ensures Inv(Apply(policy, s, a))
  {
  }

  lemma {:induction false} ExecInv<V>(policy: Policy, s: State<V>, acts: seq<Step<V>>)
    requires Inv(s) && Exec(policy, s, acts).Some?
    ensures Inv(Exec(policy, s, acts).value)
  {
    if acts != [] {
      var last := |acts| - 1;
      ExecInv(policy, s, acts[..last]);
      StepInv(policy, Exec(policy, s, acts[..last]).value, acts[last]);
    }
  }

  lemma ReachableInv<V(!new)>(policy: Policy, s: State<V>)
    requires Reachable(policy, s)
    ensures Inv(s)
  {
    var acts :| Exec(policy, State(None, map[], []), acts) == Some(s);
    ExecInv(policy, State(None, map[], []), acts);
  }

  /** Optimistic locking: the version counts the successful writes, and no two of them beat the same version. */
  lemma NoTwoWinners<V(!new)>(policy: Policy, s: State<V>)
    requires Reachable(policy, s)
    ensures |s.wins| == (if s.row.Some? then s.row.value.version else 0)
    ensures forall i, j | 0 <= i < j < |s.wins| :: s.wins[i] != s.wins[j]
  {
    ReachableInv(policy, s);
  }

  /** A write succeeds exactly when the abstract compare-and-set does, and then both end in the same value. */
  lemma RefinesRegister<V(!new)>(policy: Policy, s: State<V>, k: nat)
    requires Reachable(policy, s) && k in s.puts
    ensures var cas := Cas(Abstract(s.row), Competes(s.puts[k]), s.puts[k].body);
            && (Enabled(policy, s, Commit(k)) <==> cas.Some?)
            && (cas.Some? ==> Abstract(Apply(policy, s, Commit(k)).row) == cas.value)
  {
    ReachableInv(policy, s);
  }

  /** A create fixes identity and creation columns; an update keeps them and raises the version by one. */
  ghost predicate WrittenBy<V>(before: Option<Row<V>>, row: Row<V>, body: V, id: nat, now: int, actor: string) {
    && row.body == body && row.updatedAt == now && row.updatedBy == actor
    && if before == None then row.id == id && row.version == 1 && row.createdAt == now && row.createdBy == actor
       else row.id == before.value.id && row.version == before.value.version + 1
            && row.createdAt == before.value.createdAt && row.createdBy == before.value.createdBy
  }

  /** The value returned is the committed row in every column, however stale the read was. */
  lemma ReturnedIsCommitted<V(!new)>(policy: Policy, s: State<V>, k: nat)
    requires Reachable(policy, s) && Enabled(policy, s, Commit(k))
    ensures Apply(policy, s, Commit(k)).row == Some(Returned(s.puts[k]))
    ensures var p := s.puts[k];
            WrittenBy(s.row, Apply(policy, s, Commit(k)).row.value, p.body, p.id, p.now, p.actor)
  {
    ReachableInv(policy, s);
  }

  /** The write of `p` would be decided by a version its caller did not ask for. */
  predicate IgnoresExpected<V(==)>(s: State<V>, p: Put<V>) {
    p.read == None && p.expected != 0 && (s.row == None || s.row.value.version == p.expected)
  }

  /**
   * A write succeeds exactly when compare-and-set on the version its caller asked for does, if and only if it is
   * not a create that names a version and meets an empty register, or one at just that version. Providers
   * refuse such a create before they write; templates do not.
   */
  lemma ExpectedIsHonouredIff<V(!new)>(policy: Policy, s: State<V>, k: nat)
    requires Reachable(policy, s) && k in s.puts
    ensures var p := s.puts[k];
            && ((Enabled(policy, s, Commit(k)) <==> Cas(Abstract(s.row), p.expected, p.body).Some?)
                <==> !IgnoresExpected(s, p))
            && (policy == Providers ==> !IgnoresExpected(s, p))
  {
    ReachableInv(policy, s);
    var acts :| Exec(policy, State(None, map[], []), acts) == Some(s);
    ExecChecked(policy, acts);
  }

  /** Only checked Puts get as far as a write. */
  ghost predicate Checked<V>(policy: Policy, s: State<V>) {
    forall k | k in s.puts :: !Refused(policy, s.puts[k])
  }

  lemma {:induction false} ExecChecked<V>(policy: Policy, acts: seq<Step<V>>)
    requires Exec(policy, State(None, map[], []), acts).Some?
    ensures Checked(policy, Exec(policy, State(None, map[], []), acts).value)
  {
    if acts != [] {
      ExecChecked(policy, acts[..|acts| - 1]);
    }
  }

  /** A run in which a template is created although its caller expected version 7 of a row that is not there. */
  lemma TemplateCreateIgnoresExpected<V(!new)>(body: V) returns (s: State<V>)
    ensures Reachable(Templates, s) && 0 in s.puts && s.puts[0].expected == 7
    ensures Enabled(Templates, s, Commit(0)) && Cas(Abstract(s.row), 7, body) == None
    ensures Apply(Templates, s, Commit(0)).row.value.version == 1
  {
    var p := Put(None, 7, body, 1, 0, "admin");
    var start := State(None, map[], []);
    s := Apply(Templates, start, Read(0, p));
    assert [Read(0, p)][..0] == [];
    assert Exec(Templates, start, []) == Some(start);
    assert Exec(Templates, start, [Read(0, p)]) == Some(s);
  }

  class Table<V(==)> {
    var row: Option<Row<V>>

    constructor ()
      ensures row == None
    {
      row := None;
    }

    /**
     * PutProvider with nobody else about: compare-and-set on the register; an error may hide a write whose answer got
     * lost.
     */
    method PutProvider(body: V, expected: int, id: nat, now: int, actor: string, applied: bool, acked: bool)
      returns (r: Result<Row<V>>)
      requires row.Some? ==> row.value.version >= 1
      modifies this
      ensures var cas := Cas(Abstract(old(row)), expected, body);
              && (cas.None? ==> r == Failure(StaleVersion) && row == old(row))
              && (cas.Some? && applied ==> Abstract(row) == cas.value)
              && (cas.Some? && applied && acked ==> r.Success? && row == Some(r.value))
              && (cas.Some? && applied && !acked ==> r == Failure(Unavailable))
              && (cas.Some? && !applied ==> row == old(row) && r == Failure(Unavailable))
      ensures Refused(Providers, Put(old(row), expected, body, id, now, actor)) <==>
                Cas(Abstract(old(row)), expected, body) == None
      ensures row != old(row) ==> row.Some? && WrittenBy(old(row), row.value, body, id, now, actor)
    {
      if row == None {
        if expected != 0 {
          return Failure(StaleVersion);
        }
        var value := Row(id, 1, body, now, actor, now, actor);
        if applied {
          row := Some(value);
        }
        return if applied && acked then Success(value) else Failure(Unavailable);
      }
      var current := row.value;
      if expected <= 0 || expected != current.version {
        return Failure(StaleVersion);
      }
      current := current.(body := body, updatedAt := now, updatedBy := actor);
      if applied {
        row := Some(Updated(row.value, current.body, current.updatedAt, current.updatedBy));
      }
      current := current.(version := expected + 1);
      return if applied && acked then Success(current) else Failure(Unavailable);
    }

    /** PutTemplate with nobody else about: as PutProvider, except that a create takes any expected version. */
    method PutTemplate(body: V, expected: int, id: nat, now: int, actor: string, applied: bool, acked: bool)
      returns (r: Result<Row<V>>)
      requires row.Some? ==> row.value.version >= 1
      modifies this
      ensures var cas := Cas(Abstract(old(row)), if old(row) == None then 0 else expected, body);
              && (cas.None? ==> r == Failure(if applied then StaleVersion else Unavailable) && row == old(row))
              && (cas.Some? && applied ==> Abstract(row) == cas.value)
              && (cas.Some? && applied && acked ==> r.Success? && row == Some(r.value))
              && (cas.Some? && applied && !acked ==> r == Failure(Unavailable))
              && (cas.Some? && !applied ==> row == old(row) && r == Failure(Unavailable))
      ensures !Refused(Templates, Put(old(row), expected, body, id, now, actor))
      ensures row != old(row) ==> row.Some? && WrittenBy(old(row), row.value, body, id, now, actor)
    {
      if row == None {
        var value := Row(id, 1, body, now, actor, now, actor);
        if applied {
          row := Some(value);
        }
        return if applied && acked then Success(value) else Failure(Unavailable);
      }
      var current := row.value;
      current := current.(body := body, updatedAt := now, updatedBy := actor);
      var changed := 0;
      if applied && row.value.version == expected {
        row := Some(Updated(row.value, current.body, current.updatedAt, current.updatedBy));
        changed := 1;
      }
      current := current.(version := expected + 1);
      if applied && changed == 0 {
        return Failure(StaleVersion);
      }
      return if changed == 1 && acked then Success(current) else Failure(Unavailable);
    }
  }
}
