/** The rendezvous of clock_domain.c: every member of a clock domain reports once per block, and the
    domain fires when all of its members have. Members are bits of 32-bit masks. */
module ClockDomain {

  /** CLOCK_DOMAIN_MAX: the domains are SYSTEM, A2B, RTP and VBAN. */
  const MAX: nat := 4

  datatype Clk = Clk(mask: seq<bv32>, active: seq<bv32>)

  const START := Clk([0, 0, 0, 0], [0, 0, 0, 0])

  predicate Shape(k: Clk) { |k.mask| == |k.active| == MAX }

  /** A single member. */
  predicate Bit(b: bv32) { b != 0 && b & (b - 1) == 0 }

  predicate Has(word: bv32, b: bv32) { word & b != 0 }

  predicate Within(a: bv32, w: bv32) { a & !w == 0 }

  function With(word: bv32, m: bv32): bv32 { word | m }

  function Without(word: bv32, m: bv32): bv32 { word & !m }

  // ---------------------------------------------------------------- the operations on values

  /** Attach to a domain and detach from all others; MAX detaches only. */
  function Attach(k: Clk, domain: nat, m: bv32): Clk
    requires Shape(k)
  {
    Clk(seq(MAX, i requires 0 <= i < MAX => if i == domain then With(k.mask[i], m) else Without(k.mask[i], m)),
        seq(MAX, i requires 0 <= i < MAX => if i == domain then k.active[i] else Without(k.active[i], m)))
  }

  function SetActive(k: Clk, domain: nat, m: bv32): Clk
    requires Shape(k) && domain < MAX
  {
    k.(active := k.active[domain := With(k.active[domain], m)])
  }

  function ClrActive(k: Clk, domain: nat, m: bv32): Clk
    requires Shape(k) && domain < MAX
  {
    k.(active := k.active[domain := Without(k.active[domain], m)])
  }

  predicate Ready(k: Clk, domain: nat)
    requires Shape(k) && domain < MAX
  {
    Within(k.mask[domain], k.active[domain])
  }

  function Fire(k: Clk, domain: nat): Clk
    requires Shape(k) && domain < MAX
  {
    if Ready(k, domain) then k.(active := k.active[domain := 0]) else k
  }

  // ---------------------------------------------------------------- what a domain waits for

  function LowestBit(x: bv32): (b: bv32)
    ensures x != 0 ==> Bit(b) && Has(x, b) && b & x == b
  {
    x & (!x + 1)
  }

  /** A domain is ready exactly when every one of its members is active. */
  lemma ReadyMeansAll(k: Clk, domain: nat)
    requires Shape(k) && domain < MAX
    ensures Ready(k, domain) <==> forall b :: Bit(b) && Has(k.mask[domain], b) ==> Has(k.active[domain], b)
  {
    var m, a := k.mask[domain], k.active[domain];
    hide Bit;
    hide Has;
    hide Within;
    hide LowestBit;
    if Within(m, a) {
      forall b | Bit(b) && Has(m, b) ensures Has(a, b) { MemberActive(m, a, b); }
    } else {
      var b := LowestBit(Without(m, a));
      Missing(m, a, b);
    }
  }

  lemma MemberActive(m: bv32, a: bv32, b: bv32)
    requires Within(m, a) && Has(m, b)
    ensures Has(a, b)
  {
  }

  lemma Missing(m: bv32, a: bv32, b: bv32)
    requires !Within(m, a) && b == LowestBit(Without(m, a))
    ensures Bit(b) && Has(m, b) && !Has(a, b)
  {
  }

  // ---------------------------------------------------------------- invariants

  /** No member belongs to two domains. */
  ghost predicate Disjoint(k: Clk)
    requires Shape(k)
  {
    forall i, j :: 0 <= i < j < MAX ==> !Has(k.mask[i], k.mask[j])
  }

  /** Only members are active. */
  ghost predicate Tidy(k: Clk)
    requires Shape(k)
  {
    forall i :: 0 <= i < MAX ==> Within(k.active[i], k.mask[i])
  }

  datatype Action =
    | Set(domain: nat, m: bv32)       // clock_domain_set
    | Report(domain: nat, m: bv32)    // clock_domain_set_active, for the domain read before
    | Clear(domain: nat, m: bv32)     // clock_domain_clr_active
    | Poll(domain: nat)               // clock_domain_ready

  predicate Allowed(a: Action) { a.Set? || a.domain < MAX }

  function Do(k: Clk, a: Action): (r: Clk)
    requires Shape(k) && Allowed(a)
    ensures Shape(r)
  {
    match a
    case Set(d, m) => Attach(k, d, m)
    case Report(d, m) => SetActive(k, d, m)
    case Clear(d, m) => ClrActive(k, d, m)
    case Poll(d) => Fire(k, d)
  }

  lemma JoinedLeft(a: bv32, b: bv32, m: bv32)
    requires !Has(a, b)
    ensures !Has(With(a, m), Without(b, m))
  {
  }

  lemma JoinedRight(a: bv32, b: bv32, m: bv32)
    requires !Has(a, b)
    ensures !Has(Without(a, m), With(b, m))
  {
  }

  lemma BothLeft(a: bv32, b: bv32, m: bv32)
    requires !Has(a, b)
    ensures !Has(Without(a, m), Without(b, m))
  {
  }

  lemma WithinJoined(a: bv32, w: bv32, m: bv32)
    requires Within(a, w)
    ensures Within(a, With(w, m))
  {
  }

  lemma WithinBoth(a: bv32, w: bv32, m: bv32)
    requires Within(a, w)
    ensures Within(Without(a, m), Without(w, m))
  {
  }

  lemma WithinLess(a: bv32, w: bv32, m: bv32)
    requires Within(a, w)
    ensures Within(Without(a, m), w)
  {
  }

  lemma NoneWithin(w: bv32)
    ensures Within(0, w)
  {
  }

  lemma ReportWithin(a: bv32, w: bv32, m: bv32)
    requires Within(a, w)
    ensures Within(With(a, m), w) <==> Within(m, w)
  {
  }

  /** Whatever is called, the masks stay disjoint. */
  lemma DisjointKept(k: Clk, a: Action)
    requires Shape(k) && Allowed(a) && Disjoint(k)
    ensures Disjoint(Do(k, a))
  {
    hide Has;
    hide Within;
    hide With;
    hide Without;
    if a.Set? {
      forall i, j | 0 <= i < j < MAX ensures !Has(Do(k, a).mask[i], Do(k, a).mask[j]) {
        JoinedLeft(k.mask[i], k.mask[j], a.m);
        JoinedRight(k.mask[i], k.mask[j], a.m);
        BothLeft(k.mask[i], k.mask[j], a.m);
      }
    }
  }

  /** One call keeps activity within the masks exactly if it is no report for a domain that a member
      is not attached to. */
  lemma TidyKept(k: Clk, a: Action)
    requires Shape(k) && Allowed(a) && Tidy(k)
    ensures Tidy(Do(k, a)) <==> (a.Report? ==> Within(a.m, k.mask[a.domain]))
  {
    hide Has;
    hide Within;
    hide With;
    hide Without;
    if a.Report? {
      ReportWithin(k.active[a.domain], k.mask[a.domain], a.m);
    } else {
      TidyKeptOthers(k, a);
    }
  }

  lemma TidyKeptOthers(k: Clk, a: Action)
    requires Shape(k) && Allowed(a) && Tidy(k) && !a.Report?
    ensures Tidy(Do(k, a))
  {
    hide Has;
    hide Within;
    hide With;
    hide Without;
    var m := if a.Poll? then 0 else a.m;
    forall i | 0 <= i < MAX ensures Within(Do(k, a).active[i], Do(k, a).mask[i]) {
      WithinJoined(k.active[i], k.mask[i], m);
      WithinBoth(k.active[i], k.mask[i], m);
      WithinLess(k.active[i], k.mask[i], m);
      NoneWithin(k.mask[i]);
    }
  }

  // ---------------------------------------------------------------- runs

  function Run(k: Clk, run: seq<Action>): (r: Clk)
    requires Shape(k) && forall a :: a in run ==> Allowed(a)
    ensures Shape(r)
    decreases |run|
  {
    if run == [] then k else Run(Do(k, run[0]), run[1..])
  }

  /** Member b is attached to domain d in every state of the run. */
  ghost predicate AttachedThroughout(k: Clk, run: seq<Action>, d: nat, b: bv32)
    requires Shape(k) && d < MAX && forall a :: a in run ==> Allowed(a)
    decreases |run|
  {
    Has(k.mask[d], b) && (run != [] ==> AttachedThroughout(Do(k, run[0]), run[1..], d, b))
  }

  function Fires(k: Clk, a: Action, d: nat): nat
    requires Shape(k) && d < MAX
  {
    if a == Poll(d) && Ready(k, d) then 1 else 0
  }

  function Firings(k: Clk, run: seq<Action>, d: nat): nat
    requires Shape(k) && d < MAX && forall a :: a in run ==> Allowed(a)
    decreases |run|
  {
    if run == [] then 0 else Fires(k, run[0], d) + Firings(Do(k, run[0]), run[1..], d)
  }

  function Reports(run: seq<Action>, d: nat, b: bv32): nat {
    if run == [] then 0
    else (if run[0].Report? && run[0].domain == d && Has(run[0].m, b) then 1 else 0) + Reports(run[1..], d, b)
  }

  function Pending(k: Clk, d: nat, b: bv32): nat
    requires Shape(k) && d < MAX
  {
    if Has(k.active[d], b) then 1 else 0
  }

  lemma HasEither(a: bv32, m: bv32, b: bv32)
    requires !Has(a, b) && !Has(m, b)
    ensures !Has(With(a, m), b)
  {
  }

  lemma HasLess(a: bv32, m: bv32, b: bv32)
    ensures Has(Without(a, m), b) ==> Has(a, b)
  {
  }

  lemma HasNone(b: bv32)
    ensures !Has(0, b)
  {
  }

  lemma FiringStep(k: Clk, a: Action, d: nat, b: bv32)
    requires Shape(k) && Allowed(a) && d < MAX && Bit(b) && Has(k.mask[d], b)
    ensures Fires(k, a, d) + Pending(Do(k, a), d, b) <= Pending(k, d, b) + Reports([a], d, b)
  {
    hide Has;
    hide With;
    hide Without;
    hide Within;
    assert Reports([a], d, b) == if a.Report? && a.domain == d && Has(a.m, b) then 1 else 0;
    match a
    case Poll(_) =>
      if Ready(k, d) {
        MemberActive(k.mask[d], k.active[d], b);
      }
      HasNone(b);
    case _ =>
      if !Has(k.active[d], b) && !Has(a.m, b) {
        HasEither(k.active[d], a.m, b);
      }
      HasLess(k.active[d], a.m, b);
  }

  /** Over any run: a domain never fires more often than each of its lasting members reported. */
  lemma {:induction false} FiringsBounded(k: Clk, run: seq<Action>, d: nat, b: bv32)
    requires Shape(k) && d < MAX && Bit(b) && forall a :: a in run ==> Allowed(a)
    requires AttachedThroughout(k, run, d, b)
    ensures Firings(k, run, d) + Pending(Run(k, run), d, b) <= Pending(k, d, b) + Reports(run, d, b)
    decreases |run|
  {
    if run != [] {
      FiringStep(k, run[0], d, b);
      FiringsBounded(Do(k, run[0]), run[1..], d, b);
      assert Reports([run[0]], d, b) + Reports(run[1..], d, b) == Reports(run, d, b);
    }
  }

  /** Over any run the masks stay disjoint. */
  lemma {:induction false} RunDisjoint(k: Clk, run: seq<Action>)
    requires Shape(k) && Disjoint(k) && forall a :: a in run ==> Allowed(a)
    ensures Disjoint(Run(k, run))
    decreases |run|
  {
    if run != [] {
      DisjointKept(k, run[0]);
      RunDisjoint(Do(k, run[0]), run[1..]);
    }
  }

  predicate Attached(k: Clk, a: Action)
    requires Shape(k) && Allowed(a)
  {
    a.Report? ==> Bit(a.m) && Has(k.mask[a.domain], a.m)
  }

  /** Every report is made by a member for the domain that it has just looked up. Members report
      from interrupts of one priority, and domains are set by tasks of the same core, so that nothing
      comes between the two. */
  ghost predicate LooksUp(k: Clk, run: seq<Action>)
    requires Shape(k) && forall a :: a in run ==> Allowed(a)
    decreases |run|
  {
    run != [] ==> Attached(k, run[0]) && LooksUp(Do(k, run[0]), run[1..])
  }

  ghost predicate TidyThroughout(k: Clk, run: seq<Action>)
    requires Shape(k) && forall a :: a in run ==> Allowed(a)
    decreases |run|
  {
    Tidy(k) && (run != [] ==> TidyThroughout(Do(k, run[0]), run[1..]))
  }

  lemma HasWithin(a: bv32, w: bv32, b: bv32)
    requires Has(a, b) && Within(a, w)
    ensures Has(w, b)
  {
  }

  lemma BitWithin(w: bv32, b: bv32)
    requires Bit(b) && Has(w, b)
    ensures Within(b, w)
  {
  }

  /** Only members are ever active: in every state of every run in which members look their domain
      up before they report. */
  lemma {:induction false} RunTidy(k: Clk, run: seq<Action>)
    requires Shape(k) && Tidy(k) && forall a :: a in run ==> Allowed(a)
    requires LooksUp(k, run)
    ensures TidyThroughout(k, run) && Tidy(Run(k, run))
    decreases |run|
  {
    hide Bit;
    hide Has;
    hide Within;
    hide Do;
    if run != [] {
      var a := run[0];
      assert Allowed(a);
      if a.Report? {
        BitWithin(k.mask[a.domain], a.m);
      }
      TidyKept(k, a);
      RunTidy(Do(k, a), run[1..]);
    }
  }

  /** From the zero state on. */
  lemma RunFromStart(run: seq<Action>)
    requires forall a :: a in run ==> Allowed(a)
    requires LooksUp(START, run)
    ensures Disjoint(Run(START, run)) && TidyThroughout(START, run) && Tidy(Run(START, run))
  {
    StartOk();
    hide Has;
    hide Within;
    hide Do;
    RunDisjoint(START, run);
    RunTidy(START, run);
  }

  lemma StartOk()
    ensures Shape(START) && Disjoint(START) && Tidy(START)
  {
  }

  lemma NoSharedBit(x: bv32, y: bv32, b: bv32)
    requires Bit(b) && Has(x, b) && Has(y, b)
    ensures Has(x, y)
  {
  }

  /** A member is in at most one domain. */
  lemma OneDomain(k: Clk, i: nat, j: nat, b: bv32)
    requires Shape(k) && Disjoint(k) && i < MAX && j < MAX && Bit(b)
    requires Has(k.mask[i], b) && Has(k.mask[j], b)
    ensures i == j
  {
    hide Has;
    if i < j {
      NoSharedBit(k.mask[i], k.mask[j], b);
    } else if j < i {
      NoSharedBit(k.mask[j], k.mask[i], b);
    }
  }

  // ---------------------------------------------------------------- what each call does, member by member

  lemma HasBefore(a: bv32, m: bv32, b: bv32)
    requires Has(a, b)
    ensures Has(With(a, m), b)
  {
  }

  lemma HasNew(a: bv32, m: bv32, b: bv32)
    requires Has(m, b)
    ensures Has(With(a, m), b)
  {
  }

  lemma HasGone(a: bv32, m: bv32, b: bv32)
    requires Bit(b) && Has(m, b)
    ensures !Has(Without(a, m), b)
  {
  }

  lemma HasKept(a: bv32, m: bv32, b: bv32)
    requires Has(a, b) && !Has(m, b)
    ensures Has(Without(a, m), b)
  {
  }

  lemma HasWith(a: bv32, m: bv32, b: bv32)
    ensures Has(With(a, m), b) <==> Has(a, b) || Has(m, b)
  {
    hide Has;
    hide With;
    if Has(a, b) {
      HasBefore(a, m, b);
    } else if Has(m, b) {
      HasNew(a, m, b);
    } else {
      HasEither(a, m, b);
    }
  }

  lemma HasWithout(a: bv32, m: bv32, b: bv32)
    requires Bit(b)
    ensures Has(Without(a, m), b) <==> Has(a, b) && !Has(m, b)
  {
    hide Has;
    hide Bit;
    hide Without;
    HasLess(a, m, b);
    if Has(m, b) {
      HasGone(a, m, b);
    } else if Has(a, b) {
      HasKept(a, m, b);
    }
  }

  /** Setting a domain attaches exactly the given members, and detaches them everywhere else; no other
      call changes who is attached. */
  lemma Membership(k: Clk, a: Action, i: nat, b: bv32)
    requires Shape(k) && Allowed(a) && i < MAX && Bit(b)
    ensures Has(Do(k, a).mask[i], b) <==> if a.Set? && Has(a.m, b) then i == a.domain else Has(k.mask[i], b)
  {
    hide Has;
    hide Bit;
    hide With;
    hide Without;
    hide Ready;
    if a.Set? {
      HasWith(k.mask[i], a.m, b);
      HasWithout(k.mask[i], a.m, b);
    }
  }

  /** A member becomes active by its report alone. It becomes inactive when it is cleared, when it is
      attached to another domain, or when its domain fires, all members having reported. */
  lemma Activity(k: Clk, a: Action, i: nat, b: bv32)
    requires Shape(k) && Allowed(a) && i < MAX && Bit(b)
    ensures var (was, named) := (Has(k.active[i], b), !a.Poll? && Has(a.m, b));
      Has(Do(k, a).active[i], b) <==>
        match a
        case Set(d, _) => was && !(named && i != d)
        case Report(d, _) => was || (named && i == d)
        case Clear(d, _) => was && !(named && i == d)
        case Poll(d) =>
          was && !(i == d && forall c :: Bit(c) && Has(k.mask[d], c) ==> Has(k.active[d], c))
  {
    hide Has;
    hide Bit;
    hide With;
    hide Without;
    match a
    case Poll(d) =>
      ReadyMeansAll(k, d);
      HasNone(b);
    case _ =>
      HasWith(k.active[i], a.m, b);
      HasWithout(k.active[i], a.m, b);
  }

  /** The first domain that b belongs to, MAX if there is none. */
  function DomainOf(k: Clk, b: bv32): nat
    requires Shape(k)
  {
    if Has(k.mask[0], b) then 0
    else if Has(k.mask[1], b) then 1
    else if Has(k.mask[2], b) then 2
    else if Has(k.mask[3], b) then 3
    else MAX
  }

  /** Whoever was set to a domain is found there; all others are found where they were. */
  lemma SetThenGet(k: Clk, d: nat, m: bv32, b: bv32)
    requires Shape(k) && d <= MAX && Bit(b)
    ensures DomainOf(Do(k, Set(d, m)), b) == if Has(m, b) then d else DomainOf(k, b)
  {
    hide Has;
    hide Bit;
    hide Do;
    Membership(k, Set(d, m), 0, b);
    Membership(k, Set(d, m), 1, b);
    Membership(k, Set(d, m), 2, b);
    Membership(k, Set(d, m), 3, b);
  }

  lemma SetAttaches(k: Clk, d: nat, m: bv32)
    requires Shape(k)
    ensures var k' := Do(k, Set(d, m));
      && (forall b: bv32, i: nat {:trigger Has(k'.mask[i], b)} :: Bit(b) && i < MAX ==>
            (Has(k'.mask[i], b) <==> if Has(m, b) then i == d else Has(k.mask[i], b)))
      && forall b: bv32 :: Bit(b) && Has(m, b) && d <= MAX ==> DomainOf(k', b) == d
  {
    hide Has;
    hide Bit;
    forall b: bv32, i: nat | Bit(b) && i < MAX
      ensures Has(Do(k, Set(d, m)).mask[i], b) <==> if Has(m, b) then i == d else Has(k.mask[i], b)
    {
      Membership(k, Set(d, m), i, b);
    }
    forall b: bv32 | Bit(b) && Has(m, b) && d <= MAX ensures DomainOf(Do(k, Set(d, m)), b) == d {
      SetThenGet(k, d, m, b);
    }
    hide Do;
    hide DomainOf;
  }

  class ClockDomains {
    const clockDomainMask: array<bv32>
    const clockDomainActive: array<bv32>

    ghost function Footprint(): set<object> { {this, clockDomainMask, clockDomainActive} }

    ghost predicate Valid()
      reads this
    {
      && clockDomainMask.Length == clockDomainActive.Length == MAX
      && clockDomainMask != clockDomainActive
    }

    ghost function State(): (k: Clk)
      requires Valid()
      reads this, clockDomainMask, clockDomainActive
      ensures Shape(k)
    {
      Clk(clockDomainMask[..], clockDomainActive[..])
    }

    constructor ()
      ensures Valid() && State() == START
      ensures fresh(clockDomainMask) && fresh(clockDomainActive)
    {
      clockDomainMask, clockDomainActive := new bv32[MAX](_ => 0), new bv32[MAX](_ => 0);
    }

    method Set(domain: nat, mask: bv32)
      requires Valid()
      modifies clockDomainMask, clockDomainActive
      ensures Valid() && State() == Do(old(State()), Action.Set(domain, mask))
      ensures forall b: bv32, i: nat {:trigger Has(State().mask[i], b)} :: Bit(b) && i < MAX ==>
                (Has(State().mask[i], b) <==> if Has(mask, b) then i == domain else Has(old(State()).mask[i], b))
      ensures forall b: bv32 :: Bit(b) && Has(mask, b) && domain <= MAX ==> DomainOf(State(), b) == domain
    {
      hide With;
      hide Without;
      for i := 0 to MAX
        invariant forall j :: 0 <= j < i ==>
          && clockDomainMask[j] == Attach(old(State()), domain, mask).mask[j]
          && clockDomainActive[j] == Attach(old(State()), domain, mask).active[j]
        invariant forall j :: i <= j < MAX ==>
          clockDomainMask[j] == old(clockDomainMask[j]) && clockDomainActive[j] == old(clockDomainActive[j])
      {
        if i == domain {
          clockDomainMask[i] := With(clockDomainMask[i], mask);
        } else {
          clockDomainMask[i] := Without(clockDomainMask[i], mask);
          clockDomainActive[i] := Without(clockDomainActive[i], mask);
        }
      }
      assert State() == Do(old(State()), Action.Set(domain, mask));
      SetAttaches(old(State()), domain, mask);
    }

    /** The first domain with any of the given members, or MAX. */
    method Get(mask: bv32) returns (domain: nat)
      requires Valid()
      ensures domain <= MAX
      ensures domain < MAX ==> Has(State().mask[domain], mask)
      ensures forall i :: 0 <= i < domain ==> !Has(State().mask[i], mask)
      ensures domain == DomainOf(State(), mask)
      ensures Bit(mask) && Disjoint(State()) ==>
                forall i: nat :: i < MAX && Has(State().mask[i], mask) ==> i == domain
    {
      hide Has;
      domain := 0;
      while domain < MAX
        invariant domain <= MAX
        invariant forall i :: 0 <= i < domain ==> !Has(State().mask[i], mask)
      {
        if Has(clockDomainMask[domain], mask) {
          break;
        }
        domain := domain + 1;
      }
      if Bit(mask) && Disjoint(State()) {
        forall i: nat | i < MAX && Has(State().mask[i], mask) ensures i == domain {
          OneDomain(State(), i, domain, mask);
        }
      }
    }

    method SetActive(domain: nat, mask: bv32)
      requires Valid() && domain < MAX
      modifies clockDomainActive
      ensures Valid() && State() == Do(old(State()), Report(domain, mask))
    {
      hide With;
      clockDomainActive[domain] := With(clockDomainActive[domain], mask);
    }

    method ClrActive(domain: nat, mask: bv32)
      requires Valid() && domain < MAX
      modifies clockDomainActive
      ensures Valid() && State() == Do(old(State()), Clear(domain, mask))
    {
      hide Without;
      clockDomainActive[domain] := Without(clockDomainActive[domain], mask);
    }

    /** A member that is active for a domain belongs to it and is active for no other. */
    method GetActive(domain: nat, mask: bv32) returns (active: bool)
      requires Valid() && domain < MAX
      ensures active <==> Has(State().active[domain], mask)
      ensures active && Bit(mask) && Tidy(State()) && Disjoint(State()) ==>
                && Has(State().mask[domain], mask)
                && forall i: nat :: i < MAX && Has(State().active[i], mask) ==> i == domain
    {
      active := Has(clockDomainActive[domain], mask);
      hide Has;
      hide Bit;
      if active && Bit(mask) && Tidy(State()) && Disjoint(State()) {
        HasWithin(State().active[domain], State().mask[domain], mask);
        forall i: nat | i < MAX && Has(State().active[i], mask) ensures i == domain {
          HasWithin(State().active[i], State().mask[i], mask);
          OneDomain(State(), i, domain, mask);
        }
      }
    }

    /** True, and everybody inactive again, exactly when all members had reported. */
    method TakeReady(domain: nat) returns (ready: bool)
      requires Valid() && domain < MAX
      modifies clockDomainActive
      ensures Valid() && State() == Do(old(State()), Poll(domain))
      ensures ready <==> Fires(old(State()), Poll(domain), domain) == 1
      ensures ready <==> forall b :: Bit(b) && Has(State().mask[domain], b) ==> Has(old(State()).active[domain], b)
    {
      ReadyMeansAll(State(), domain);
      hide Within;
      hide Has;
      ready := Within(clockDomainMask[domain], clockDomainActive[domain]);
      if ready {
        clockDomainActive[domain] := 0;
      }
    }

    /** How a member reports: its domain is looked up first. */
    method ReportTo(mask: bv32) returns (cd: nat)
      requires Valid() && Disjoint(State()) && Bit(mask)
      requires exists i :: 0 <= i < MAX && Has(State().mask[i], mask)
      modifies clockDomainActive
      ensures Valid() && cd < MAX && Has(State().mask[cd], mask)
      ensures State() == Do(old(State()), Report(cd, mask))
      ensures LooksUp(old(State()), [Report(cd, mask)]) && (Tidy(old(State())) ==> Tidy(State()))
    {
      cd := Get(mask);
      BitWithin(clockDomainMask[cd], mask);
      hide Has;
      hide Bit;
      hide Within;
      if Tidy(State()) {
        TidyKept(State(), Report(cd, mask));
      }
      SetActive(cd, mask);
    }
  }
}
