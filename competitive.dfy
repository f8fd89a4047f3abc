/**
 * The platform statistics of app/components/CompetitiveProgramming.tsx:
 * the initial list of three platforms, the per-platform stat records built
 * from each provider's reply, the update of one platform by name, the
 * distinct-solved count for Codeforces, and the sweep that marks every
 * platform failed when a step throws. Each network call is an input
 * `Fetched` value; React's functional `setPlatforms` updates are applied in
 * the order the code issues them.
 */
module Competitive {
  import opened Wrappers
  import opened Text

  /* ---------- data ---------- */

  /** `rating?: string | number`. */
  datatype Rating = Num(n: int) | Label(s: string)

  /** The `stats` object; an absent property is `None`. `streak` is never set and is not modelled. */
  datatype Stats = Stats(
    rating: Option<Rating>,
    rank: Option<string>,
    solved: Option<int>,
    badges: Option<seq<string>>,
    contests: Option<int>,
    loading: bool,
    error: Option<string>)

  /** A platform card's data; the icon component is not modelled. */
  datatype Platform = Platform(name: string, color: string, url: string, profileUrl: string, stats: Stats)

  const LeetCode := "LeetCode"
  const CodeForces := "CodeForces"
  const CodeChef := "CodeChef"
  const LoadError := "Failed to load stats"
  const NotAvailable := "N/A"

  /** `{ loading: true }`. */
  const LoadingStats := Stats(None, None, None, None, None, true, None)

  /** Lines 243-268: the three platforms, all loading. */
  function InitialPlatforms(): (r: seq<Platform>)
    ensures |r| == 3
    ensures forall i :: 0 <= i < 3 ==> r[i].stats == LoadingStats
    ensures r[0].name == LeetCode && r[1].name == CodeForces && r[2].name == CodeChef
  {
    [Platform(LeetCode, "#FFA116", "https://leetcode.com", "https://leetcode.com/u/Annuraag09/", LoadingStats),
     Platform(CodeForces, "#1F8ACB", "https://codeforces.com", "https://codeforces.com/profile/anuragyv", LoadingStats),
     Platform(CodeChef, "#5B4638", "https://www.codechef.com", "https://www.codechef.com/users/annurag66", LoadingStats)]
  }

  /** The platform names, in order; FetchKeepsNames states that the fetch never changes them. */
  function Names(ps: seq<Platform>): (r: seq<string>)
    ensures |r| == |ps| && forall i :: 0 <= i < |ps| ==> r[i] == ps[i].name
  {
    seq(|ps|, i requires 0 <= i < |ps| => ps[i].name)
  }

  /* ---------- updates of the list ---------- */

  /**
   * Lines 281, 330, 345: `prev.map(p => p.name === name ? { ...p, stats: { ...s, loading: false } } : p)`.
   * UpdateByNameKeeps and UpdateAbsentName state what the update keeps.
   */
  function UpdateByName(ps: seq<Platform>, name: string, s: Stats): (r: seq<Platform>)
    ensures |r| == |ps|
    ensures forall i :: 0 <= i < |ps| ==>
      r[i] == if ps[i].name == name then ps[i].(stats := s.(loading := false)) else ps[i]
  {
    seq(|ps|, i requires 0 <= i < |ps| => if ps[i].name == name then ps[i].(stats := s.(loading := false)) else ps[i])
  }

  /**
   * Lines 351-358: every platform stops loading and gets the error, keeping
   * its other stats; SweepKeeps and SweepIdempotent are its properties.
   */
  function Sweep(ps: seq<Platform>): (r: seq<Platform>)
    ensures |r| == |ps|
    ensures forall i :: 0 <= i < |ps| ==>
      r[i] == ps[i].(stats := ps[i].stats.(loading := false, error := Some(LoadError)))
  {
    seq(|ps|, i requires 0 <= i < |ps| => ps[i].(stats := ps[i].stats.(loading := false, error := Some(LoadError))))
  }

  /** An update keeps the names, the order and every entry of another name, and only stops that entry loading. */
  lemma UpdateByNameKeeps(ps: seq<Platform>, name: string, s: Stats)
    ensures Names(UpdateByName(ps, name, s)) == Names(ps)
    ensures forall i :: 0 <= i < |ps| && ps[i].name != name ==> UpdateByName(ps, name, s)[i] == ps[i]
    ensures forall i :: 0 <= i < |ps| && ps[i].name == name ==>
      !UpdateByName(ps, name, s)[i].stats.loading
      && UpdateByName(ps, name, s)[i].stats.(loading := s.loading) == s
      && UpdateByName(ps, name, s)[i].color == ps[i].color && UpdateByName(ps, name, s)[i].url == ps[i].url
  {
  }

  /** Updating a name no platform has changes nothing. */
  lemma UpdateAbsentName(ps: seq<Platform>, name: string, s: Stats)
    requires name !in Names(ps)
    ensures UpdateByName(ps, name, s) == ps
  {
    var r := UpdateByName(ps, name, s);
    forall i | 0 <= i < |ps| ensures r[i] == ps[i] {
      assert Names(ps)[i] == ps[i].name;
    }
  }

  /** After the sweep nothing is loading and every platform shows the error; names and stats otherwise stay. */
  lemma SweepKeeps(ps: seq<Platform>)
    ensures Names(Sweep(ps)) == Names(ps)
    ensures forall i :: 0 <= i < |ps| ==>
      !Sweep(ps)[i].stats.loading && Sweep(ps)[i].stats.error == Some(LoadError)
      && Sweep(ps)[i].stats.(loading := ps[i].stats.loading, error := ps[i].stats.error) == ps[i].stats
  {
  }

  /** Sweeping twice is sweeping once. */
  lemma SweepIdempotent(ps: seq<Platform>)
    ensures Sweep(Sweep(ps)) == Sweep(ps)
  {
  }

  /* ---------- LeetCode ---------- */

  /** The LeetCode reply; a missing, `null` or zero number is `None` or falsy alike. */
  datatype LeetData = LeetData(totalSolved: Option<int>, ranking: Option<int>)

  /** A number is truthy when present and not zero. */
  predicate TruthyNum(n: Option<int>) {
    n.Some? && n.value != 0
  }

  /** Lines 275-280. */
  function LeetCodeStats(d: LeetData): (r: Stats)
    ensures r.solved == Some(if TruthyNum(d.totalSolved) then d.totalSolved.value else 0)
    ensures r.rank == Some(if TruthyNum(d.ranking) then "Global #" + IntToString(d.ranking.value) else NotAvailable)
    ensures r.badges == Some(["100 Day Streak", "50 Day Streak"])
    ensures r.rating == None && r.contests == None && r.error == None
  {
    Stats(None,
      Some(if TruthyNum(d.ranking) then "Global #" + IntToString(d.ranking.value) else NotAvailable),
      Some(if TruthyNum(d.totalSolved) then d.totalSolved.value else 0),
      Some(["100 Day Streak", "50 Day Streak"]),
      None, true, None)
  }

  /* ---------- Codeforces ---------- */

  /** An element of `user.info`'s `result`. */
  datatype CfUser = CfUser(rating: Option<int>, rank: Option<string>)

  /** The `user.info` reply: `result` is `None` when the reply has no such array (reading `[0]` then throws). */
  datatype CfInfo = CfInfo(result: Option<seq<CfUser>>)

  /** An element of `user.status`'s `result`: its verdict and its problem's contest and index. */
  datatype Submission = Submission(verdict: string, contestId: int, index: string)

  /** Line 301: `${contestId}${index}`. */
  function Key(s: Submission): string {
    IntToString(s.contestId) + s.index
  }

  predicate Accepted(s: Submission) {
    s.verdict == "OK"
  }

  /** The keys of the accepted submissions, collected left to right. */
  function SolvedKeys(subs: seq<Submission>): (r: set<string>)
    decreases |subs|
  {
    if subs == [] then {}
    else
      var last := subs[|subs| - 1];
      SolvedKeys(subs[..|subs| - 1]) + (if Accepted(last) then {Key(last)} else {})
  }

  /** The number of accepted submissions. */
  function AcceptedCount(subs: seq<Submission>): (r: nat)
    ensures r <= |subs|
    decreases |subs|
  {
    if subs == [] then 0
    else AcceptedCount(subs[..|subs| - 1]) + (if Accepted(subs[|subs| - 1]) then 1 else 0)
  }

  /** A key is collected exactly when some accepted submission has it. */
  lemma SolvedKeysMember(subs: seq<Submission>, k: string)
    ensures k in SolvedKeys(subs) <==> exists i :: 0 <= i < |subs| && Accepted(subs[i]) && Key(subs[i]) == k
  {
    if k in SolvedKeys(subs) {
      var i := SolvedKeyWitness(subs, k);
    }
    forall i | 0 <= i < |subs| && Accepted(subs[i]) && Key(subs[i]) == k
      ensures k in SolvedKeys(subs)
    {
      AcceptedKeySolved(subs, i);
    }
  }

  /** A collected key names an accepted submission. */
  lemma {:induction false} SolvedKeyWitness(subs: seq<Submission>, k: string) returns (i: nat)
    requires k in SolvedKeys(subs)
    ensures i < |subs| && Accepted(subs[i]) && Key(subs[i]) == k
    decreases |subs|
  {
    var init := subs[..|subs| - 1];
    var last := subs[|subs| - 1];
    if Accepted(last) && Key(last) == k {
      i := |subs| - 1;
    } else {
      i := SolvedKeyWitness(init, k);
      assert subs[i] == init[i];
    }
  }

  /** Every accepted submission's key is collected. */
  lemma {:induction false} AcceptedKeySolved(subs: seq<Submission>, i: nat)
    requires i < |subs| && Accepted(subs[i])
    ensures Key(subs[i]) in SolvedKeys(subs)
    decreases |subs|
  {
    var init := subs[..|subs| - 1];
    if i < |init| {
      AcceptedKeySolved(init, i);
      assert init[i] == subs[i];
    }
  }

  /** Distinct solved problems never outnumber the accepted submissions. */
  lemma {:induction false} SolvedAtMostAccepted(subs: seq<Submission>)
    ensures |SolvedKeys(subs)| <= AcceptedCount(subs)
    decreases |subs|
  {
    if subs != [] {
      var init := subs[..|subs| - 1];
      SolvedAtMostAccepted(init);
      var last := subs[|subs| - 1];
      if Accepted(last) {
        assert |SolvedKeys(init) + {Key(last)}| <= |SolvedKeys(init)| + 1;
      }
    }
  }

  /** An accepted resubmission of a problem already solved adds nothing. */
  lemma ResubmissionNotCounted(subs: seq<Submission>, s: Submission)
    requires Accepted(s)
    requires exists i :: 0 <= i < |subs| && Accepted(subs[i]) && Key(subs[i]) == Key(s)
    ensures SolvedKeys(subs + [s]) == SolvedKeys(subs)
  {
    var i :| 0 <= i < |subs| && Accepted(subs[i]) && Key(subs[i]) == Key(s);
    AcceptedKeySolved(subs, i);
    assert (subs + [s])[..|subs|] == subs;
  }

  /** Lines 298-305: the accepted submissions' keys gathered into a set, and its size. */
  method CountSolved(subs: seq<Submission>) returns (solved: nat)
    ensures solved == |SolvedKeys(subs)|
  {
    var keys: set<string> := {};
    for i := 0 to |subs|
      invariant keys == SolvedKeys(subs[..i])
    {
      assert subs[..i + 1][..i] == subs[..i];
      if Accepted(subs[i]) {
        keys := keys + {Key(subs[i])};
      }
    }
    assert subs[..|subs|] == subs;
    solved := |keys|;
  }

  /** Lines 293-309: the solved count, 0 when the submissions request fails or throws. */
  function SolvedCount(subs: Fetched<seq<Submission>>): (r: nat)
    ensures subs.Ok? ==> r == |SolvedKeys(subs.body)|
    ensures !subs.Ok? ==> r == 0
  {
    if subs.Ok? then |SolvedKeys(subs.body)| else 0
  }

  /** Lines 312-321: the length of the rating history, 0 when that request fails or throws. */
  function ContestCount(history: Fetched<nat>): (r: nat)
    ensures history.Ok? ==> r == history.body
    ensures !history.Ok? ==> r == 0
  {
    if history.Ok? then history.body else 0
  }

  /** Lines 323-329. */
  function CodeforcesStats(user: CfUser, solved: nat, contests: nat): (r: Stats)
    ensures r.rating == (if user.rating.Some? then Some(Num(user.rating.value)) else None)
    ensures r.rank == user.rank && r.solved == Some(solved) && r.contests == Some(contests)
    ensures r.badges == Some([]) && r.error == None
  {
    Stats(if user.rating.Some? then Some(Num(user.rating.value)) else None, user.rank, Some(solved), Some([]),
      Some(contests), true, None)
  }

  /* ---------- CodeChef ---------- */

  /** The CodeChef reply: `rating_number`, `global_rank`, and `rating`, which may be a number or a text. */
  datatype CcData = CcData(ratingNumber: Option<int>, globalRank: Option<int>, rating: Option<Rating>)

  /** `ccData.rating ? … : …`: a number is truthy unless it is zero, a text unless it is empty. */
  predicate TruthyRating(x: Option<Rating>) {
    x.Some? && match x.value
      case Num(n) => n != 0
      case Label(t) => t != []
  }

  /** A rating inside a template literal. */
  function RatingText(x: Rating): string {
    match x
    case Num(n) => IntToString(n)
    case Label(t) => t
  }

  /** Lines 339-344. */
  function CodeChefStats(d: CcData): (r: Stats)
    ensures r.rating == Some(if TruthyNum(d.ratingNumber) then Num(d.ratingNumber.value) else Label(NotAvailable))
    ensures r.rank == Some(if TruthyNum(d.globalRank) then "#" + IntToString(d.globalRank.value) else NotAvailable)
    ensures r.badges == Some(if TruthyRating(d.rating) then [RatingText(d.rating.value) + " Rating"] else [])
    ensures r.solved == None && r.contests == None && r.error == None
  {
    Stats(
      Some(if TruthyNum(d.ratingNumber) then Num(d.ratingNumber.value) else Label(NotAvailable)),
      Some(if TruthyNum(d.globalRank) then "#" + IntToString(d.globalRank.value) else NotAvailable),
      None,
      Some(if TruthyRating(d.rating) then [RatingText(d.rating.value) + " Rating"] else []),
      None, true, None)
  }

  /** A rating of the number 0, of an empty text, or no rating at all gives no badge. */
  lemma FalsyRatingNoBadge(d: CcData)
    requires d.rating == None || d.rating == Some(Num(0)) || d.rating == Some(Label([]))
    ensures CodeChefStats(d).badges == Some([])
  {
  }

  /* ---------- the whole fetch ---------- */

  /** The outcomes of the five requests, in the order the code issues them. */
  datatype Replies = Replies(
    leet: Fetched<LeetData>,
    cfInfo: Fetched<CfInfo>,
    cfSubmissions: Fetched<seq<Submission>>,
    cfHistory: Fetched<nat>,
    cc: Fetched<CcData>)

  /**
   * Lines 283-332 after LeetCode: the list after the Codeforces step, or
   * `None` when it throws (the info request throws or its reply has no
   * `result`). A reply that is not ok, or an empty `result`, changes nothing.
   */
  function CodeforcesStep(ps: seq<Platform>, r: Replies): Option<seq<Platform>> {
    match r.cfInfo
    case Threw => None
    case NotOk => Some(ps)
    case Ok(info) =>
      if info.result.None? then None
      else if info.result.value == [] then Some(ps)
      else Some(UpdateByName(ps, CodeForces,
        CodeforcesStats(info.result.value[0], SolvedCount(r.cfSubmissions), ContestCount(r.cfHistory))))
  }

  /** Lines 237-360: the platform list once `fetchPlatformData` has finished. */
  function FetchOutcome(r: Replies): seq<Platform> {
    var ps := InitialPlatforms();
    if !r.leet.Ok? then Sweep(ps)
    else
      var ps1 := UpdateByName(ps, LeetCode, LeetCodeStats(r.leet.body));
      match CodeforcesStep(ps1, r)
      case None => Sweep(ps1)
      case Some(ps2) =>
        if r.cc.Ok? then UpdateByName(ps2, CodeChef, CodeChefStats(r.cc.body)) else Sweep(ps2)
  }

  /** The section's `platforms` state. */
  class CompetitiveSection {
    var platforms: seq<Platform>

    /** Line 234: no platforms before the effect runs. */
    constructor()
      ensures platforms == []
    {
      platforms := [];
    }

    /** Lines 237-360: the effect, state update by state update. */
    method FetchPlatformData(r: Replies)
      modifies this
      ensures platforms == FetchOutcome(r)
    {
      platforms := InitialPlatforms();
      if !r.leet.Ok? {
        platforms := Sweep(platforms);
        return;
      }
      platforms := UpdateByName(platforms, LeetCode, LeetCodeStats(r.leet.body));
      match r.cfInfo {
        case Threw =>
          platforms := Sweep(platforms);
          return;
        case NotOk =>
        case Ok(info) =>
          if info.result.None? {
            platforms := Sweep(platforms);
            return;
          }
          if info.result.value != [] {
            var solved := 0;
            if r.cfSubmissions.Ok? {
              solved := CountSolved(r.cfSubmissions.body);
            }
            var contests := 0;
            if r.cfHistory.Ok? {
              contests := r.cfHistory.body;
            }
            platforms := UpdateByName(platforms, CodeForces, CodeforcesStats(info.result.value[0], solved, contests));
          }
      }
      if r.cc.Ok? {
        platforms := UpdateByName(platforms, CodeChef, CodeChefStats(r.cc.body));
      } else {
        platforms := Sweep(platforms);
      }
    }
  }

  /* ---------- properties of the whole fetch ---------- */

  /** Whatever the replies, the cards are LeetCode, CodeForces and CodeChef in that order. */
  lemma FetchKeepsNames(r: Replies)
    ensures Names(FetchOutcome(r)) == [LeetCode, CodeForces, CodeChef]
  {
    var ps := InitialPlatforms();
    assert Names(ps) == [LeetCode, CodeForces, CodeChef];
    SweepKeeps(ps);
    if r.leet.Ok? {
      var ps1 := UpdateByName(ps, LeetCode, LeetCodeStats(r.leet.body));
      UpdateByNameKeeps(ps, LeetCode, LeetCodeStats(r.leet.body));
      SweepKeeps(ps1);
      var step := CodeforcesStep(ps1, r);
      if step.Some? {
        var ps2 := step.value;
        if r.cfInfo.Ok? && r.cfInfo.body.result.Some? && r.cfInfo.body.result.value != [] {
          var cf := CodeforcesStats(r.cfInfo.body.result.value[0], SolvedCount(r.cfSubmissions), ContestCount(r.cfHistory));
          UpdateByNameKeeps(ps1, CodeForces, cf);
        }
        assert Names(ps2) == Names(ps1);
        UpdateByNameKeeps(ps2, CodeChef, if r.cc.Ok? then CodeChefStats(r.cc.body) else LoadingStats);
        SweepKeeps(ps2);
      }
    }
  }

  /** When a step throws, nothing is left loading and every card shows the error. */
  lemma FailureSweepsAll(r: Replies)
    requires !r.leet.Ok? || CodeforcesStep(UpdateByName(InitialPlatforms(), LeetCode, LeetCodeStats(r.leet.body)), r).None?
      || !r.cc.Ok?
    ensures forall i :: 0 <= i < |FetchOutcome(r)| ==>
      !FetchOutcome(r)[i].stats.loading && FetchOutcome(r)[i].stats.error == Some(LoadError)
  {
  }

  /** A LeetCode failure stops the fetch before the other providers are asked: their replies do not matter. */
  lemma LeetCodeFailureIgnoresRest(r: Replies, r': Replies)
    requires !r.leet.Ok? && r'.leet == r.leet
    ensures FetchOutcome(r) == FetchOutcome(r')
  {
  }

  /**
   * A Codeforces info reply that is not ok, or has an empty `result`, leaves
   * that card loading while the others finish: the spinner never stops.
   */
  lemma EmptyCodeforcesStaysLoading(r: Replies)
    requires r.leet.Ok? && r.cc.Ok?
    requires r.cfInfo == NotOk || r.cfInfo == Ok(CfInfo(Some([])))
    ensures FetchOutcome(r)[1].stats.loading
    ensures !FetchOutcome(r)[0].stats.loading && !FetchOutcome(r)[2].stats.loading
  {
    var ps := InitialPlatforms();
    var ps1 := UpdateByName(ps, LeetCode, LeetCodeStats(r.leet.body));
    assert ps1[1] == ps[1];
    var ps2 := UpdateByName(ps1, CodeChef, CodeChefStats(r.cc.body));
    assert ps2[1] == ps1[1];
  }

  /** On a full success the Codeforces card's solved count is at most its accepted submissions. */
  lemma CodeforcesSolvedBound(r: Replies)
    requires r.leet.Ok? && r.cc.Ok? && r.cfSubmissions.Ok?
    requires r.cfInfo.Ok? && r.cfInfo.body.result.Some? && r.cfInfo.body.result.value != []
    ensures FetchOutcome(r)[1].stats.solved.Some?
    ensures FetchOutcome(r)[1].stats.solved.value <= AcceptedCount(r.cfSubmissions.body)
  {
    SolvedAtMostAccepted(r.cfSubmissions.body);
    var ps := InitialPlatforms();
    var ps1 := UpdateByName(ps, LeetCode, LeetCodeStats(r.leet.body));
    var cf := CodeforcesStats(r.cfInfo.body.result.value[0], SolvedCount(r.cfSubmissions), ContestCount(r.cfHistory));
    var ps2 := UpdateByName(ps1, CodeForces, cf);
    assert ps2[1].stats.solved == cf.solved;
    var ps3 := UpdateByName(ps2, CodeChef, CodeChefStats(r.cc.body));
    assert ps3[1] == ps2[1];
  }
}
