/**
 * How far a recorded last valid height may fall short of the real one. The
 * worker takes it from its first RPC origin alone (agent-orchestrator/src/refunds.ts);
 * the origin that never lies may be another one.
 */
module PayoutHeights {
  import opened Wrappers
  import opened Payout
  import opened PayoutSafety
  import opened PayoutRuns

  predicate PaidTwice(w: World, c: Chain, a: Tx, b: Tx) {
    a != b && w.memo(a) == w.memo(b) && PaidOn(c, a) && PaidOn(c, b)
  }

  /** A record is at least the real height, or it is `recorded` where the real one is `actual`. */
  function ShortRules(w: World, recorded: nat, actual: nat): Rules {
    Rules((tx: Tx, r: nat) => w.lastValid(tx) <= r || (r == recorded && w.lastValid(tx) == actual), Harmless)
  }

  ghost predicate CanPayTwice(recorded: nat, actual: nat) {
    exists w: World, events: seq<Event>, s: State, a: Tx, b: Tx ::
      Reaches(w, events, s, ShortRules(w, recorded, actual)) && PaidTwice(w, s.chain, a, b)
  }

  /** Two transactions of one claim; the second origin never lies. */
  function ShortWorld(actual: nat): World {
    World(2, 1, (tx: Tx) => "claim", (tx: Tx) => if tx == "old" then actual else actual + 1)
  }

  /** The old transaction is on the wire, and the chain stands one block above the recorded height. */
  lemma SendsOld(recorded: nat, actual: nat) returns (events: seq<Event>, s: State)
    requires recorded > 0
    ensures Reaches(ShortWorld(actual), events, s, ShortRules(ShortWorld(actual), recorded, actual))
    ensures s.chain == Chain(map[], recorded + 1) && s.truthView == recorded + 1 && s.now == 0 && "old" in s.network
    ensures s.passes.Keys == {"p0"} && HasClaim(s, PreparedAt("old", recorded, 1, "worker", 0))
    ensures var p := s.passes["p0"];
      p.worker == "worker" && p.claim == "claim" && p.rowView == 0 && HasClaim(s, p.row)
  {
    var w := ShortWorld(actual);
    var rules := ShortRules(w, recorded, actual);
    Starts(w, rules);
    hide Reaches;
    events := [] + [NewClaim("claim")];
    var created := WithClaim(Start, "claim", FreshClaim);
    Extend(w, [], NewClaim("claim"), Start, created, rules);
    events, s := LeasesAndSends(w, events, created, "p0", "worker", "old", recorded, rules);
    events := GrowAndSee(w, events, s, recorded + 1, rules);
    s := s.(chain := s.chain.(height := recorded + 1), truthView := recorded + 1);
  }

  lemma NotesAbsence(recorded: nat, actual: nat) returns (events: seq<Event>, s: State)
    requires recorded > 0
    ensures Reaches(ShortWorld(actual), events, s, ShortRules(ShortWorld(actual), recorded, actual))
    ensures s.chain == Chain(map[], recorded + 1) && s.truthView == recorded + 1 && s.now == 0 && "old" in s.network
    ensures s.passes.Keys == {"p0"} && HasClaim(s, Noted(PreparedAt("old", recorded, 1, "worker", 0), 0))
  {
    var w := ShortWorld(actual);
    var rules := ShortRules(w, recorded, actual);
    events, s := SendsOld(recorded, actual);
    hide Reaches;
    var r := ReportOf(s.passes["p0"]);
    events := LooksAbsent(w, events, s, "p0", rules);
    s := s.(requests := s.requests + {r});
    var noted := Noted(PreparedAt("old", recorded, 1, "worker", 0), 0);
    events := ExecutesReport(w, events, s, r, noted, rules);
    s := WithClaim(s, "claim", noted);
  }

  /** Two passes two minutes apart saw the truth: no transaction yet, and a height above the recorded one. */
  lemma FreesTheClaim(recorded: nat, actual: nat) returns (events: seq<Event>, s: State)
    requires recorded > 0
    ensures Reaches(ShortWorld(actual), events, s, ShortRules(ShortWorld(actual), recorded, actual))
    ensures s.chain == Chain(map[], recorded + 1) && "old" in s.network
    ensures s.passes.Keys == {"p0", "p1"} && HasClaim(s, Freed(1, 120_010))
  {
    var w := ShortWorld(actual);
    var rules := ShortRules(w, recorded, actual);
    events, s := NotesAbsence(recorded, actual);
    hide Reaches;
    events := Wait(w, events, s, 120_000, rules);
    s := s.(now := 120_000);
    events, s := LeasesAgain(w, events, s, "p1", "worker", rules);
    var r := ReportOf(s.passes["p1"]);
    events := LooksAbsent(w, events, s, "p1", rules);
    s := s.(requests := s.requests + {r});
    events := ExecutesReport(w, events, s, r, Freed(1, 120_010), rules);
    s := WithClaim(s, "claim", Freed(1, 120_010));
  }

  /** Both transactions land in time, and the claim is paid twice. */
  lemma PaysTwice(recorded: nat, actual: nat) returns (events: seq<Event>, s: State)
    requires 0 < recorded && recorded + 1 < actual
    ensures Reaches(ShortWorld(actual), events, s, ShortRules(ShortWorld(actual), recorded, actual))
    ensures PaidTwice(ShortWorld(actual), s.chain, "old", "new")
  {
    var w := ShortWorld(actual);
    var rules := ShortRules(w, recorded, actual);
    events, s := FreesTheClaim(recorded, actual);
    hide Reaches;
    events, s := LeasesAndSends(w, events, s, "p2", "worker", "new", actual + 1, rules);
    events := Lands(w, events, s, "old", rules);
    s := Landed(s, "old");
    events := Lands(w, events, s, "new", rules);
    s := Landed(s, "new");
  }

  /** A claim can be paid twice exactly when a recorded height falls short by more than one block. */
  lemma PaidTwiceExactly(recorded: nat, actual: nat)
    requires recorded > 0
    ensures CanPayTwice(recorded, actual) <==> recorded + 1 < actual
  {
    if recorded + 1 < actual {
      var events, s := PaysTwice(recorded, actual);
    } else if CanPayTwice(recorded, actual) {
      var w: World, events: seq<Event>, s: State, a: Tx, b: Tx :|
        Reaches(w, events, s, ShortRules(w, recorded, actual)) && PaidTwice(w, s.chain, a, b);
      forall e | e in events ensures EventAsksEnough(w, e) {
        assert Obeys(e, ShortRules(w, recorded, actual));
      }
      hide Run, Effects;
      NoClaimPaidTwice(w, events, a, b);
    }
  }
}
