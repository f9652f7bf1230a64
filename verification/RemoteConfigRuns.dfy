/** What holds of Remote Config over every run. The clock moves only in `Wait`; the lease
    timer is a `Close` like any other. */
module RemoteConfigRuns {
  import opened Wrappers
  import opened RemoteConfig

  datatype Event =
    | Wait(ms: nat)
    | Open(leaseMs: int, code: PairingCode)
    | Close
    | PairWith(supplied: PairingCode, allowed: bool, cookie: Cookie)
    | Request
    | CloseConfig

  datatype System = System(now: Time, r: Remote)

  const START := System(0, Remote(Gateway(None, None, 0, None, 0, 0, 0), Local([], None, false)))

  function Step(s: System, e: Event): System {
    match e
    case Wait(ms) => s.(now := s.now + ms)
    case Open(ms, code) => s.(r := OpenLease(s.r, ms, code, s.now).0)
    case Close => s.(r := CloseLease(s.r))
    case PairWith(supplied, allowed, cookie) => s.(r := Pair(s.r, supplied, allowed, cookie, s.now).0)
    case Request => s.(r := Checked(s.r, s.now))
    case CloseConfig => s.(r := s.r.(local := CloseLocal(s.r.local)))
  }

  function Run(s: System, es: seq<Event>): System
    decreases |es|
  {
    if es == [] then s else Run(Step(s, es[0]), es[1..])
  }

  // ------------------------------------------------------------------- invariants

  /** An open lease has exactly one of a pairing hash and a session hash. */
  predicate ExactlyOneSecret(g: Gateway) {
    if g.expires == 0 then g.owner.None? && g.pairing.None? && g.cookie.None?
    else g.owner.Some? && (g.pairing.Some? <==> g.cookie.None?)
  }

  predicate OnlyTheCurrentIsUnrevoked(l: Local) {
    && (forall i :: 0 <= i < |l.sessions| && !l.sessions[i].revoked ==> l.remote == Some(i))
    && (l.remote.Some? ==> l.remote.value < |l.sessions|)
    && (l.closed ==> forall i :: 0 <= i < |l.sessions| ==> l.sessions[i].revoked)
  }

  /** The gateway's session is the current one and ends with the lease; without a lease
      every session is revoked. */
  predicate OwnerIsCurrent(r: Remote) {
    && (r.gateway.owner.Some? ==>
          && r.gateway.owner == r.local.remote && r.gateway.owner.value < |r.local.sessions|
          && r.local.sessions[r.gateway.owner.value].expires == r.gateway.expires)
    && (r.gateway.owner.None? ==> forall i :: 0 <= i < |r.local.sessions| ==> r.local.sessions[i].revoked)
  }

  predicate TimesFit(g: Gateway, now: Time) {
    && 0 <= now
    && (g.expires != 0 ==> g.window <= now && 0 < g.expires && g.pairingExpires <= g.expires)
  }

  predicate Inv(s: System) {
    && ExactlyOneSecret(s.r.gateway)
    && OnlyTheCurrentIsUnrevoked(s.r.local)
    && OwnerIsCurrent(s.r)
    && TimesFit(s.r.gateway, s.now)
  }

  lemma ClosingKeepsInv(s: System)
    requires Inv(s)
    ensures Inv(s.(r := CloseLease(s.r)))
  {
  }

  lemma OpeningKeepsInv(s: System, ms: int, code: PairingCode)
    requires Inv(s)
    ensures Inv(Step(s, Open(ms, code)))
  {
    ClosingKeepsInv(s);
  }

  lemma PairingKeepsInv(s: System, e: Event)
    requires Inv(s) && e.PairWith?
    ensures Inv(Step(s, e))
  {
    ClosingKeepsInv(s);
  }

  lemma StepKeepsInv(s: System, e: Event)
    requires Inv(s)
    ensures Inv(Step(s, e))
  {
    ClosingKeepsInv(s);
    if e.Open? {
      OpeningKeepsInv(s, e.leaseMs, e.code);
    } else if e.PairWith? {
      PairingKeepsInv(s, e);
    }
  }

  lemma {:induction false} RunKeepsInv(s: System, es: seq<Event>)
    requires Inv(s)
    ensures Inv(Run(s, es))
    decreases |es|
  {
    if es != [] {
      StepKeepsInv(s, es[0]);
      RunKeepsInv(Step(s, es[0]), es[1..]);
    }
  }

  /** On every run: while a lease is open there is exactly one secret to present, the code
      or the cookie; and at most one remote owner session is not revoked, which is the one
      of the open lease. */
  lemma OneSecretAndOneSession(es: seq<Event>)
    ensures var r := Run(START, es).r;
      && ExactlyOneSecret(r.gateway)
      && forall i :: 0 <= i < |r.local.sessions| && !r.local.sessions[i].revoked ==> r.gateway.owner == Some(i)
  {
    RunKeepsInv(START, es);
  }

  // ---------------------------------------------------------------- cookies are minted

  predicate PairsAs(s: System, e: Event, cookie: Cookie) {
    e.PairWith? && e.cookie == cookie && Pair(s.r, e.supplied, e.allowed, e.cookie, s.now).1 == Paired
  }

  predicate EndsLease(s: System, e: Event) {
    e.Close? || e.CloseConfig? || (e.Open? && MIN_LEASE <= e.leaseMs <= MAX_LEASE)
  }

  predicate Undisturbed(s: System, es: seq<Event>)
    decreases |es|
  {
    es == [] || (!EndsLease(s, es[0]) && Undisturbed(Step(s, es[0]), es[1..]))
  }

  /** Some event pairs with this cookie, its lease is not ended afterwards, and lasts until
      after `end`. */
  predicate MintedAndLeased(s: System, es: seq<Event>, cookie: Cookie, end: Time)
    decreases |es|
  {
    es != []
    && ((PairsAs(s, es[0], cookie) && end < s.r.gateway.expires && Undisturbed(Step(s, es[0]), es[1..]))
        || MintedAndLeased(Step(s, es[0]), es[1..], cookie, end))
  }

  lemma {:induction false} TimeFlows(s: System, es: seq<Event>)
    ensures s.now <= Run(s, es).now
    decreases |es|
  {
    if es != [] {
      TimeFlows(Step(s, es[0]), es[1..]);
    }
  }

  /** How one event changes whether a cookie will be accepted at time `end`. */
  predicate Holds(s: System, cookie: Cookie, end: Time) {
    s.r.gateway.cookie == Some(cookie) && end < s.r.gateway.expires && HoldsActive(s.r, s.now)
  }

  lemma HoldsStep(s: System, e: Event, cookie: Cookie, end: Time)
    requires Inv(s) && Step(s, e).now <= end
    ensures Holds(Step(s, e), cookie, end) <==>
      (Holds(s, cookie, end) && !EndsLease(s, e)) || (PairsAs(s, e, cookie) && end < s.r.gateway.expires)
    ensures !(PairsAs(s, e, cookie) && Holds(s, cookie, end))
  {
  }

  lemma {:induction false} HeldToTheEnd(s: System, es: seq<Event>, cookie: Cookie)
    requires Inv(s)
    ensures Authorized(Run(s, es).r, cookie, Run(s, es).now) <==>
      (Holds(s, cookie, Run(s, es).now) && Undisturbed(s, es)) || MintedAndLeased(s, es, cookie, Run(s, es).now)
    decreases |es|
  {
    if es != [] {
      var end := Run(s, es).now;
      TimeFlows(Step(s, es[0]), es[1..]);
      StepKeepsInv(s, es[0]);
      HoldsStep(s, es[0], cookie, end);
      HeldToTheEnd(Step(s, es[0]), es[1..], cookie);
    }
  }

  /** A cookie is accepted exactly if a pairing in the currently open lease minted it and the
      lease has neither been ended nor run out. */
  lemma AcceptedExactlyWhenMintedInThisLease(es: seq<Event>, cookie: Cookie)
    ensures Authorized(Run(START, es).r, cookie, Run(START, es).now) <==> MintedAndLeased(START, es, cookie, Run(START, es).now)
  {
    HeldToTheEnd(START, es, cookie);
  }

  // ------------------------------------------------------------- bounds for one lease

  predicate Opens(e: Event) {
    e.Open? && MIN_LEASE <= e.leaseMs <= MAX_LEASE
  }

  /** The supplied code is compared with the pairing hash, in time. */
  predicate Compares(s: System, e: Event) {
    && e.PairWith? && e.allowed && HoldsActive(s.r, s.now)
    && Counted(s.r.gateway, s.now).attempts <= MAX_ATTEMPTS
    && s.now <= s.r.gateway.pairingExpires && s.r.gateway.pairing.Some?
  }

  function Comparisons(s: System, es: seq<Event>): nat
    decreases |es|
  {
    if es == [] then 0 else (if Compares(s, es[0]) then 1 else 0) + Comparisons(Step(s, es[0]), es[1..])
  }

  function Pairings(s: System, es: seq<Event>): nat
    decreases |es|
  {
    if es == [] then 0
    else (if es[0].PairWith? && PairsAs(s, es[0], es[0].cookie) then 1 else 0) + Pairings(Step(s, es[0]), es[1..])
  }

  /** No other lease is opened. */
  predicate SameLease(es: seq<Event>) {
    forall i :: 0 <= i < |es| ==> !Opens(es[i])
  }

  function Max(a: int, b: int): int {
    if a >= b then a else b
  }

  /** How many comparisons a lease can still see: the rest of this window, and ten for
      every window that can still begin before the code expires. */
  function Budget(s: System): int {
    var g := s.r.gateway;
    if g.pairing.None? || s.now > g.pairingExpires then 0
    else Max(0, MAX_ATTEMPTS - g.attempts) + MAX_ATTEMPTS * ((g.pairingExpires - g.window) / WINDOW)
  }

  lemma WindowsPass(window: Time, now: Time, end: Time)
    requires now - window >= WINDOW && now <= end
    ensures (end - now) / WINDOW + 1 <= (end - window) / WINDOW
  {
  }

  lemma BudgetStep(s: System, e: Event)
    requires Inv(s) && !Opens(e)
    ensures Budget(Step(s, e)) + (if Compares(s, e) then 1 else 0) <= Budget(s)
  {
    var g := s.r.gateway;
    if e.PairWith? && g.pairing.Some? && s.now <= g.pairingExpires && s.now - g.window >= WINDOW {
      WindowsPass(g.window, s.now, g.pairingExpires);
    }
  }

  lemma {:induction false} ComparisonsWithinBudget(s: System, es: seq<Event>)
    requires Inv(s) && SameLease(es)
    ensures Comparisons(s, es) <= Max(0, Budget(s))
    decreases |es|
  {
    if es != [] {
      StepKeepsInv(s, es[0]);
      BudgetStep(s, es[0]);
      ComparisonsWithinBudget(Step(s, es[0]), es[1..]);
    }
  }

  /** Whatever happens within one lease, at most 110 supplied codes are compared in time:
      ten in each of eleven windows. */
  lemma AtMost110Guesses(before: seq<Event>, ms: int, code: PairingCode, es: seq<Event>)
    requires SameLease(es)
    requires OpenLease(Run(START, before).r, ms, code, Run(START, before).now).1.Success?
    ensures Comparisons(Step(Run(START, before), Open(ms, code)), es) <= 110
  {
    var s := Run(START, before);
    RunKeepsInv(START, before);
    StepKeepsInv(s, Open(ms, code));
    ComparisonsWithinBudget(Step(s, Open(ms, code)), es);
  }

  lemma NoCodeNoPairing(s: System, e: Event)
    requires s.r.gateway.pairing.None? && !Opens(e)
    ensures Step(s, e).r.gateway.pairing.None? && !(e.PairWith? && PairsAs(s, e, e.cookie))
  {
  }

  lemma {:induction false} PairedOnce(s: System, es: seq<Event>)
    requires SameLease(es)
    ensures Pairings(s, es) <= 1
    ensures s.r.gateway.pairing.None? ==> Pairings(s, es) == 0
    decreases |es|
  {
    if es != [] {
      PairedOnce(Step(s, es[0]), es[1..]);
      if s.r.gateway.pairing.None? {
        NoCodeNoPairing(s, es[0]);
      }
    }
  }

  /** The code pairs at most once in its lease, in every run. */
  lemma CodesPairOnce(before: seq<Event>, es: seq<Event>)
    requires SameLease(es)
    ensures Pairings(Run(START, before), es) <= 1
  {
    PairedOnce(Run(START, before), es);
  }

  // ------------------------------------------------------------- the bound is reached

  function Guesses(n: nat, wrong: PairingCode): (es: seq<Event>)
    ensures |es| == n && forall i :: 0 <= i < n ==> es[i] == PairWith(wrong, true, 0)
  {
    if n == 0 then [] else [PairWith(wrong, true, 0)] + Guesses(n - 1, wrong)
  }

  /** `k + 1` full windows of guesses, one minute apart. */
  function Burst(k: nat, wrong: PairingCode): (es: seq<Event>)
    ensures SameLease(es)
  {
    Guesses(MAX_ATTEMPTS, wrong) + (if k == 0 then [] else [Wait(WINDOW)] + Burst(k - 1, wrong))
  }

  predicate Guessable(s: System, wrong: PairingCode) {
    HoldsActive(s.r, s.now) && s.r.gateway.pairing.Some? && s.r.gateway.pairing != Some(wrong)
    && s.now <= s.r.gateway.pairingExpires
  }

  lemma GuessStep(s: System, wrong: PairingCode)
    requires Guessable(s, wrong) && Counted(s.r.gateway, s.now).attempts <= MAX_ATTEMPTS
    ensures Compares(s, PairWith(wrong, true, 0))
    ensures Step(s, PairWith(wrong, true, 0)) == System(s.now, s.r.(gateway := Counted(s.r.gateway, s.now)))
  {
  }

  /** A run of guesses inside one window: all are compared. */
  lemma {:induction false} GuessesAreCompared(s: System, n: nat, wrong: PairingCode, more: seq<Event>)
    requires Guessable(s, wrong) && s.now - s.r.gateway.window < WINDOW && s.r.gateway.attempts + n <= MAX_ATTEMPTS
    ensures Comparisons(s, Guesses(n, wrong) + more)
         == n + Comparisons(System(s.now, s.r.(gateway := s.r.gateway.(attempts := s.r.gateway.attempts + n))), more)
    decreases n
  {
    if n == 0 {
      assert Guesses(0, wrong) + more == more;
    } else {
      GuessStep(s, wrong);
      assert (Guesses(n, wrong) + more)[1..] == Guesses(n - 1, wrong) + more;
      GuessesAreCompared(Step(s, PairWith(wrong, true, 0)), n - 1, wrong, more);
    }
  }

  /** A window may begin here, and `k` more can follow in time. */
  predicate AtWindowStart(s: System, k: nat, wrong: PairingCode) {
    var g := s.r.gateway;
    && Guessable(s, wrong)
    && ((s.now == g.window && g.attempts == 0) || s.now - g.window == WINDOW)
    && s.now + k * WINDOW <= g.pairingExpires
    && s.now + k * WINDOW < g.expires
    && s.r.local.sessions[g.owner.value].expires == g.expires
  }

  lemma {:induction false} BurstIsCompared(s: System, k: nat, wrong: PairingCode)
    requires AtWindowStart(s, k, wrong)
    ensures Comparisons(s, Burst(k, wrong)) == MAX_ATTEMPTS * (k + 1)
    decreases k
  {
    var more := if k == 0 then [] else [Wait(WINDOW)] + Burst(k - 1, wrong);
    var s1 := System(s.now, s.r.(gateway := s.r.gateway.(window := s.now, attempts := 1)));
    var s10 := System(s.now, s.r.(gateway := s.r.gateway.(window := s.now, attempts := MAX_ATTEMPTS)));
    GuessStep(s, wrong);
    assert Burst(k, wrong)[1..] == Guesses(9, wrong) + more;
    GuessesAreCompared(s1, 9, wrong, more);
    if k > 0 {
      assert more[1..] == Burst(k - 1, wrong);
      BurstIsCompared(s10.(now := s10.now + WINDOW), k - 1, wrong);
    }
  }

  /** The bound of 110 is exact for every lease that outlives its code. */
  lemma GuessesReach110(before: seq<Event>, ms: int, code: PairingCode, wrong: PairingCode)
    requires ms > PAIRING_TTL && wrong != code
    requires OpenLease(Run(START, before).r, ms, code, Run(START, before).now).1.Success?
    ensures Comparisons(Step(Run(START, before), Open(ms, code)), Burst(10, wrong)) == 110
  {
    RunKeepsInv(START, before);
    BurstIsCompared(Step(Run(START, before), Open(ms, code)), 10, wrong);
  }
}
