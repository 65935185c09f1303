/** The lock word shared by three cores, at the level of single memory accesses: compare-exchange
    on one kind of ARM core, load-acquire-exclusive and store-exclusive on the other, load and
    store exclusive on SHARC. Runs are arbitrary interleavings of accesses. */
module SpinLock {

  const CORES: nat := 3

  type Core = c: nat | c < CORES

  datatype Kind = CompareExchange | AcquireExclusive | Sharc

  /** Where a core is in sae_lock or sae_unlock. */
  datatype Pc =
    | Outside      // not in sae_lockIpc .. sae_unLockIpc
    | Spinning     // in the loop around sae_lock
    | SawUnlocked  // exclusive load returned 0, exclusive store to come
    | Holding      // sae_lock returned true
    | Releasing    // SHARC sae_unlock: exclusive load done, exclusive store to come

  datatype State = State(word: int, reserved: seq<bool>, pc: seq<Pc>)

  /** One access or one event, by one core. */
  datatype Action =
    | Enter(c: Core)
    | TryCas(c: Core)
    | LoadExclusive(c: Core, err: bool)
    | StoreExclusive(c: Core, fail: bool)
    | StorePlain(c: Core)
    | LoseReservation(c: Core)

  ghost predicate Shape(s: State) { |s.reserved| == CORES && |s.pc| == CORES }

  const NONE := [false, false, false]

  function Start(): State { State(0, NONE, [Outside, Outside, Outside]) }

  /** A store to the lock word, which ends every reservation of it. */
  function Store(s: State, c: Core, value: int, next: Pc): State
    requires Shape(s)
  {
    State(value, NONE, s.pc[c := next])
  }

  function Goto(s: State, c: Core, next: Pc): State
    requires Shape(s)
  {
    s.(pc := s.pc[c := next])
  }

  /** The effect of an action; an action that core c cannot take here changes nothing. */
  function Do(s: State, kind: Core -> Kind, a: Action): State
    requires Shape(s)
  {
    var pc := s.pc[a.c];
    match a
    case Enter(c) =>
      if pc == Outside then Goto(s, c, Spinning) else s
    case TryCas(c) =>
      if pc == Spinning && kind(c) == CompareExchange && s.word == 0 then Store(s, c, 1, Holding) else s
    case LoadExclusive(c, err) =>
      if kind(c) == CompareExchange then s
      else if pc == Spinning then
        if err && kind(c) == Sharc then s
        else Goto(s.(reserved := s.reserved[c := true]), c, if s.word == 0 then SawUnlocked else Spinning)
      else if pc == Holding && kind(c) == Sharc then
        Goto(s.(reserved := s.reserved[c := !err]), c, Releasing)
      else s
    case StoreExclusive(c, fail) =>
      var ok := s.reserved[c] && !fail;
      var s1 := s.(reserved := s.reserved[c := false]);
      if pc == SawUnlocked then
        if ok then Store(s, c, 1, Holding) else Goto(s1, c, Spinning)
      else if pc == Releasing then
        if ok then Store(s, c, 0, Outside) else Goto(s1, c, Holding)
      else s
    case StorePlain(c) =>
      if pc == Holding && kind(c) != Sharc then Store(s, c, 0, Outside) else s
    case LoseReservation(c) =>
      s.(reserved := s.reserved[c := false])
  }

  function Run(s: State, kind: Core -> Kind, run: seq<Action>): (r: State)
    requires Shape(s)
    ensures Shape(r)
    decreases |run|
  {
    if run == [] then s else Run(Do(s, kind, run[0]), kind, run[1..])
  }

  predicate InSection(p: Pc) { p == Holding || p == Releasing }

  ghost predicate Inv(s: State)
  {
    && Shape(s)
    && (s.word == 0 || s.word == 1)
    && (forall c, d :: 0 <= c < d < CORES ==> !(InSection(s.pc[c]) && InSection(s.pc[d])))
    && (forall c :: 0 <= c < CORES && InSection(s.pc[c]) ==> s.word == 1)
    && (s.word == 1 ==> exists c :: 0 <= c < CORES && InSection(s.pc[c]))
    && (forall c :: 0 <= c < CORES && s.pc[c] == SawUnlocked && s.reserved[c] ==> s.word == 0)
  }

  datatype Owner = Free | Owned(c: nat)

  /** The lock as the rest of the system sees it. */
  ghost function OwnerOf(s: State): Owner
    requires Shape(s)
  {
    if InSection(s.pc[0]) then Owned(0)
    else if InSection(s.pc[1]) then Owned(1)
    else if InSection(s.pc[2]) then Owned(2)
    else Free
  }

  lemma TakeOrGive(s: State, c: Core, value: int, next: Pc)
    requires Inv(s)
    requires (value == 1 && next == Holding && s.word == 0) || (value == 0 && next == Outside && InSection(s.pc[c]))
    ensures Inv(Store(s, c, value, next))
    ensures OwnerOf(s) == if value == 1 then Free else Owned(c)
    ensures OwnerOf(Store(s, c, value, next)) == if value == 1 then Owned(c) else Free
  {
    assert value == 1 ==> InSection(Store(s, c, value, next).pc[c]);
  }

  lemma Stutter(s: State, c: Core, reserved: bool, next: Pc)
    requires Inv(s) && InSection(next) == InSection(s.pc[c])
    requires next == SawUnlocked && reserved ==> s.word == 0
    ensures var s' := Goto(s.(reserved := s.reserved[c := reserved]), c, next);
      Inv(s') && OwnerOf(s') == OwnerOf(s)
  {
    var s' := Goto(s.(reserved := s.reserved[c := reserved]), c, next);
    if s.word == 1 {
      var d :| 0 <= d < CORES && InSection(s.pc[d]);
      assert InSection(s'.pc[d]);
    }
  }

  lemma StartInv()
    ensures Inv(Start()) && OwnerOf(Start()) == Free
  {
  }

  /** Every access keeps the invariant and is, for the abstract lock, an acquisition of a free
      lock, a release by the owner, or nothing. */
  lemma DoRefines(s: State, kind: Core -> Kind, a: Action)
    requires Inv(s)
    ensures Inv(Do(s, kind, a))
    ensures var (o, o') := (OwnerOf(s), OwnerOf(Do(s, kind, a)));
      o' == o || (o == Free && o' == Owned(a.c)) || (o == Owned(a.c) && o' == Free)
  {
    hide Inv;
    hide OwnerOf;
    var c := a.c;
    InvFacts(s, c);
    var s' := Do(s, kind, a);
    if s'.reserved == NONE && s'.word != s.word {
      TakeOrGive(s, c, s'.word, s'.pc[c]);
      assert s' == Store(s, c, s'.word, s'.pc[c]);
    } else {
      Stutter(s, c, s'.reserved[c], s'.pc[c]);
      assert s' == Goto(s.(reserved := s.reserved[c := s'.reserved[c]]), c, s'.pc[c]);
    }
  }

  lemma InvFacts(s: State, c: Core)
    requires Inv(s)
    ensures Shape(s) && (s.word == 0 || s.word == 1)
    ensures InSection(s.pc[c]) ==> s.word == 1
    ensures s.pc[c] == SawUnlocked && s.reserved[c] ==> s.word == 0
  {
  }

  /** In every reachable state at most one core is in the critical section, and the lock word is 1
      exactly while some core is. */
  lemma {:induction false} MutualExclusion(s: State, kind: Core -> Kind, run: seq<Action>)
    requires Inv(s)
    ensures Inv(Run(s, kind, run))
    ensures var r := Run(s, kind, run);
      && (forall c, d :: 0 <= c < CORES && 0 <= d < CORES && InSection(r.pc[c]) && InSection(r.pc[d]) ==> c == d)
      && (r.word == 1 <==> exists c :: 0 <= c < CORES && InSection(r.pc[c]))
    decreases |run|
  {
    if run != [] {
      DoRefines(s, kind, run[0]);
      MutualExclusion(Do(s, kind, run[0]), kind, run[1..]);
    }
  }

  /** What core c does to take a free lock when nothing interferes. */
  function Acquisition(kind: Core -> Kind, c: Core): seq<Action> {
    if kind(c) == CompareExchange then [TryCas(c)] else [LoadExclusive(c, false), StoreExclusive(c, false)]
  }

  /** A spinning core takes a free lock within two undisturbed accesses, and cannot take a held one
      however often it tries. */
  lemma AcquisitionWorks(s: State, kind: Core -> Kind, c: Core)
    requires Inv(s) && s.pc[c] == Spinning
    ensures OwnerOf(Run(s, kind, Acquisition(kind, c))) ==
              if OwnerOf(s) == Free then Owned(c) else OwnerOf(s)
  {
    hide Inv;
    hide OwnerOf;
    InvFacts(s, c);
    NotFree(s);
    var run := Acquisition(kind, c);
    var r := Run(s, kind, run);
    if kind(c) == CompareExchange {
      var s1 := Do(s, kind, TryCas(c));
      assert run[1..] == [];
      assert r == Run(s1, kind, run[1..]) == s1;
    } else {
      var s1 := Do(s, kind, LoadExclusive(c, false));
      assert run[1..] == [StoreExclusive(c, false)] && run[1..][1..] == [];
      assert r == Run(s1, kind, run[1..]) == Do(s1, kind, StoreExclusive(c, false));
    }
    if s.word == 0 {
      TakeOrGive(s, c, 1, Holding);
      assert r.pc == s.pc[c := Holding];
    } else {
      Stutter(s, c, r.reserved[c], Spinning);
      assert r.pc == s.pc && r.reserved == s.reserved[c := r.reserved[c]];
    }
  }

  /** What core c does to give the lock back when nothing interferes. */
  function Release(kind: Core -> Kind, c: Core): seq<Action> {
    if kind(c) == Sharc then [LoadExclusive(c, false), StoreExclusive(c, false)] else [StorePlain(c)]
  }

  lemma RunTwo(s: State, kind: Core -> Kind, a: Action, b: Action)
    requires Shape(s)
    ensures Run(s, kind, [a]) == Do(s, kind, a) && Run(s, kind, [a, b]) == Do(Do(s, kind, a), kind, b)
  {
    var s1, run := Do(s, kind, a), [a, b];
    DoShape(s, kind, a);
    DoShape(s1, kind, b);
    hide Do;
    assert [a][1..] == [] && [b][1..] == [] && run[1..] == [b] && run[0] == a;
    assert Run(s1, kind, []) == s1;
    assert Run(s1, kind, [b]) == Do(s1, kind, b);
  }

  lemma DoShape(s: State, kind: Core -> Kind, a: Action)
    requires Shape(s)
    ensures Shape(Do(s, kind, a))
  {
  }

  /** An undisturbed release gives the lock back: the word is 0, the core outside, nobody the owner. */
  lemma ReleaseWorks(s: State, kind: Core -> Kind, c: Core)
    requires Inv(s) && s.pc[c] == Holding
    ensures var r := Run(s, kind, Release(kind, c));
      && Inv(r) && r.word == 0 && OwnerOf(s) == Owned(c) && OwnerOf(r) == Free
      && r.pc == s.pc[c := Outside]
  {
    hide Inv;
    hide OwnerOf;
    InvFacts(s, c);
    RunTwo(s, kind, LoadExclusive(c, false), StoreExclusive(c, false));
    RunTwo(s, kind, StorePlain(c), StorePlain(c));
    TakeOrGive(s, c, 0, Outside);
    var r := Run(s, kind, Release(kind, c));
    hide Run;
    assert r.pc == s.pc[c := Outside];
    assert r == Store(s, c, 0, Outside);
  }

  /** An exclusive store that fails, or whose reservation was lost, changes neither the word nor the
      owner: an attempt to take the lock or to give it back is made again. */
  lemma FailedStore(s: State, kind: Core -> Kind, c: Core, lost: bool)
    requires Inv(s) && kind(c) != CompareExchange
    requires s.pc[c] == Spinning || (s.pc[c] == Holding && kind(c) == Sharc)
    ensures var s1 := Do(s, kind, LoadExclusive(c, false));
      var r := if lost then Do(Do(s1, kind, LoseReservation(c)), kind, StoreExclusive(c, false))
               else Do(s1, kind, StoreExclusive(c, true));
      && Inv(r) && r.word == s.word && OwnerOf(r) == OwnerOf(s) && r.pc[c] == s.pc[c]
  {
    hide Inv;
    hide OwnerOf;
    InvFacts(s, c);
    var s1 := Do(s, kind, LoadExclusive(c, false));
    var r := if lost then Do(Do(s1, kind, LoseReservation(c)), kind, StoreExclusive(c, false))
             else Do(s1, kind, StoreExclusive(c, true));
    Stutter(s, c, r.reserved[c], s.pc[c]);
    assert r.pc == s.pc[c := s.pc[c]];
    assert r == Goto(s.(reserved := s.reserved[c := r.reserved[c]]), c, s.pc[c]);
  }

  lemma {:induction false} RunJoin(s: State, kind: Core -> Kind, a: seq<Action>, b: seq<Action>)
    requires Shape(s)
    ensures Run(s, kind, a + b) == Run(Run(s, kind, a), kind, b)
    decreases |a|
  {
    if a == [] {
      assert a + b == b;
    } else {
      DoShape(s, kind, a[0]);
      hide Do;
      assert (a + b)[1..] == a[1..] + b;
      RunJoin(Do(s, kind, a[0]), kind, a[1..], b);
    }
  }

  lemma Enters(s: State, kind: Core -> Kind, c: Core)
    requires Inv(s) && s.pc[c] == Outside
    ensures var r := Run(s, kind, [Enter(c)]); Inv(r) && OwnerOf(r) == OwnerOf(s) && r.pc[c] == Spinning
  {
    DoRefines(s, kind, Enter(c));
    RunTwo(s, kind, Enter(c), Enter(c));
    hide Inv;
    assert forall d: Core :: InSection(Do(s, kind, Enter(c)).pc[d]) == InSection(s.pc[d]);
  }

  /** The lock goes from core to core: once c has given it back, any core that wants it, c included,
      can take it. */
  lemma HandOver(s: State, kind: Core -> Kind, c: Core, d: Core)
    requires Inv(s) && s.pc[c] == Holding && (d == c || s.pc[d] in {Outside, Spinning})
    ensures var enter := if d != c && s.pc[d] == Spinning then [] else [Enter(d)];
      OwnerOf(Run(s, kind, Release(kind, c) + (enter + Acquisition(kind, d)))) == Owned(d)
  {
    var enter := if d != c && s.pc[d] == Spinning then [] else [Enter(d)];
    ReleaseWorks(s, kind, c);
    var s1 := Run(s, kind, Release(kind, c));
    if enter == [] {
      assert Run(s1, kind, enter) == s1;
    } else {
      Enters(s1, kind, d);
    }
    AcquisitionWorks(Run(s1, kind, enter), kind, d);
    hide Run;
    hide Inv;
    hide OwnerOf;
    RunJoin(s, kind, Release(kind, c), enter + Acquisition(kind, d));
    RunJoin(s1, kind, enter, Acquisition(kind, d));
  }

  lemma NotFree(s: State)
    requires Inv(s)
    ensures OwnerOf(s) == Free <==> s.word == 0
  {
  }
}
