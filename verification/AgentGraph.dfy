/**
  The graph of an agent run: the routing guards (backend/matrix/agent/guards.py) and the edges
  built from them (backend/matrix/agent/state_machine.py).

  A state holds the fields the guards read; a field the source reads with a default is an
  option here.  What a node writes is arbitrary, except that REVISE adds one to the attempts
  and no other node touches them (backend/matrix/agent/nodes/revise.py).
 */
module AgentGraph {
  import opened Prelude

  datatype Node =
    | Idle | Research | Draft | ImageGen | Review | Revise | Schedule | Dispatch
    | Publish | Interact | Collect | Analyze | Alert | End

  datatype Slot = Slot(deviceId: string, accountId: string)

  datatype RunError = RunError(code: string, forceAlert: bool)

  datatype InteractResults = InteractResults(succeeded: Option<int>, failed: Option<int>)

  datatype AgentState = AgentState(
    entry: Option<string>,
    candidates: seq<string>,
    forbiddenHits: seq<string>,
    scoreDup: Option<real>,
    scoreHuman: Option<real>,
    reviseAttempts: int,
    slot: Option<Slot>,
    createdTaskIds: seq<string>,
    publishOk: bool,
    interactPlan: Option<seq<string>>,
    interactResults: Option<InteractResults>,
    noteMetrics: map<string, int>,
    lastError: Option<RunError>,
    draftImages: seq<string>,
    imageGenFallback: Option<string>,
    alertAck: bool)

  datatype GuardConfig = GuardConfig(
    reviseMaxAttempts: int, maxDupScore: real, minHumanScore: real,
    requireNoteMetrics: bool, enablePostPublishInteract: bool)

  datatype Reason = ForbiddenWord | Duplicate | LowHumanScore

  function OrElse<T>(o: Option<T>, default: T): T { if o.Some? then o.value else default }

  // ----- guards -----

  function ReviewReasons(s: AgentState, cfg: GuardConfig): seq<Reason>
  {
    (if s.forbiddenHits != [] then [ForbiddenWord] else [])
    + (if OrElse(s.scoreDup, 0.0) >= cfg.maxDupScore then [Duplicate] else [])
    + (if OrElse(s.scoreHuman, 1.0) < cfg.minHumanScore then [LowHumanScore] else [])
  }

  predicate CanReviewToSchedule(s: AgentState, cfg: GuardConfig) { ReviewReasons(s, cfg) == [] }

  predicate CanReviewToAlert(s: AgentState, cfg: GuardConfig)
  {
    !CanReviewToSchedule(s, cfg) && s.reviseAttempts >= cfg.reviseMaxAttempts
  }

  predicate CanReviewToRevise(s: AgentState, cfg: GuardConfig)
  {
    !CanReviewToSchedule(s, cfg) && s.reviseAttempts < cfg.reviseMaxAttempts
  }

  predicate HasSlot(s: AgentState)
  {
    s.slot.Some? && s.slot.value.deviceId != "" && s.slot.value.accountId != ""
  }

  predicate CreatedTasks(s: AgentState) { |s.createdTaskIds| > 0 }

  predicate CanPublishToInteract(s: AgentState, cfg: GuardConfig)
  {
    cfg.enablePostPublishInteract && s.publishOk && s.interactPlan.Some? && |s.interactPlan.value| > 0
  }

  predicate StartsWith(s: string, prefix: string) { prefix <= s }

  predicate ImageGenToReview(s: AgentState, cfg: GuardConfig)
  {
    if s.lastError.Some? && StartsWith(s.lastError.value.code, "IMAGE_GEN_") && s.lastError.value.forceAlert then false
    else s.draftImages != [] || OrElse(s.imageGenFallback, "no_image") != "idle"
  }

  predicate InteractHasResults(s: AgentState)
  {
    s.interactResults.Some? && s.interactResults.value.succeeded.Some?
  }

  predicate InteractAllFailed(s: AgentState)
  {
    InteractHasResults(s)
    && OrElse(s.interactResults.value.failed, 0) > 0
    && OrElse(s.interactResults.value.succeeded, 0) == 0
  }

  predicate CollectHasMetrics(s: AgentState, cfg: GuardConfig)
  {
    !cfg.requireNoteMetrics || s.noteMetrics != map[]
  }

  function Upper(s: string): string
  {
    seq(|s|, i requires 0 <= i < |s| => if 'a' <= s[i] <= 'z' then s[i] - 'a' + 'A' else s[i])
  }

  predicate IdleToAnalyze(s: AgentState) { Upper(OrElse(s.entry, "RESEARCH")) == "ANALYZE" }

  // ----- edges -----

  function RouteIdle(s: AgentState): Node { if IdleToAnalyze(s) then Analyze else Research }

  function RouteAfterReview(s: AgentState, cfg: GuardConfig): Node
  {
    if CanReviewToSchedule(s, cfg) then Schedule
    else if CanReviewToAlert(s, cfg) then Alert
    else Revise
  }

  function RouteAfterPublish(s: AgentState, cfg: GuardConfig): Node
  {
    if !s.publishOk then Alert else if CanPublishToInteract(s, cfg) then Interact else Idle
  }

  function RouteAfterInteract(s: AgentState): Node
  {
    if !InteractHasResults(s) then Alert else if InteractAllFailed(s) then Alert else Idle
  }

  /** The node after `node`, chosen in the state that `node` left behind. */
  function Successor(node: Node, s: AgentState, cfg: GuardConfig): Node
  {
    match node
    case Idle => End
    case Research => if s.candidates != [] then Draft else Alert
    case Draft => ImageGen
    case ImageGen => if ImageGenToReview(s, cfg) then Review else Alert
    case Review => RouteAfterReview(s, cfg)
    case Revise => if s.reviseAttempts >= cfg.reviseMaxAttempts then Alert else Draft
    case Schedule => if HasSlot(s) then Dispatch else Alert
    case Dispatch => if CreatedTasks(s) then Publish else Alert
    case Publish => RouteAfterPublish(s, cfg)
    case Interact => RouteAfterInteract(s)
    case Collect => if CollectHasMetrics(s, cfg) then Analyze else Alert
    case Analyze => Idle
    case Alert => if s.alertAck then Idle else End
    case End => End
  }

  // ----- runs -----

  predicate Writes(node: Node, before: AgentState, after: AgentState)
  {
    after.reviseAttempts == before.reviseAttempts + if node == Revise then 1 else 0
  }

  /** The state in which node `i` starts. */
  function Before(start: AgentState, after: seq<AgentState>, i: nat): AgentState
    requires i <= |after|
  {
    if i == 0 then start else after[i - 1]
  }

  /** Visit `i`: the graph led here, and the node wrote what nodes of its kind write. */
  predicate VisitOk(cfg: GuardConfig, start: AgentState, nodes: seq<Node>, after: seq<AgentState>, i: nat)
    requires i < |nodes| == |after|
  {
    && nodes[i] == (if i == 0 then RouteIdle(start) else Successor(nodes[i - 1], after[i - 1], cfg))
    && nodes[i] != End
    && Writes(nodes[i], Before(start, after, i), after[i])
  }

  /** `nodes` are the nodes visited so far; `after[i]` is the state node `i` left behind. */
  ghost predicate IsRun(cfg: GuardConfig, start: AgentState, nodes: seq<Node>, after: seq<AgentState>)
  {
    && |nodes| == |after| > 0 && start.reviseAttempts >= 0
    && forall i | 0 <= i < |nodes| :: VisitOk(cfg, start, nodes, after, i)
  }

  /** How many visits interacting after a publish can add. */
  function Extra(cfg: GuardConfig): nat { if cfg.enablePostPublishInteract then 1 else 0 }

  function Longest(cfg: GuardConfig): nat { 4 * Max(1, cfg.reviseMaxAttempts) + 5 + Extra(cfg) }

  /** At most how many nodes are still visited from `node` on, it included. */
  function Remaining(cfg: GuardConfig, node: Node, attempts: int): int
  {
    var loops, extra := 4 * Max(0, cfg.reviseMaxAttempts - 1 - attempts), Extra(cfg);
    match node
    case End => 0
    case Idle => 1
    case Alert => 2
    case Analyze => 2
    case Interact => 3
    case Collect => 3
    case Publish => 3 + extra
    case Dispatch => 4 + extra
    case Schedule => 5 + extra
    case Review => 6 + extra + loops
    case ImageGen => 7 + extra + loops
    case Draft => 8 + extra + loops
    case Research => 9 + extra + loops
    case Revise => if attempts + 1 >= cfg.reviseMaxAttempts then 3 else 5 + extra + loops
  }

  lemma RemainingFalls(cfg: GuardConfig, node: Node, before: AgentState, after: AgentState)
    requires node != End && Writes(node, before, after)
    requires node == Revise ==> before.reviseAttempts < cfg.reviseMaxAttempts
    ensures Remaining(cfg, Successor(node, after, cfg), after.reviseAttempts)
            < Remaining(cfg, node, before.reviseAttempts)
  {
  }

  /** REVISE is entered only below the limit. */
  lemma ReviseBelowLimit(cfg: GuardConfig, start: AgentState, nodes: seq<Node>, after: seq<AgentState>, i: nat)
    requires IsRun(cfg, start, nodes, after) && i < |nodes| && nodes[i] == Revise
    ensures Before(start, after, i).reviseAttempts < cfg.reviseMaxAttempts
  {
    assert VisitOk(cfg, start, nodes, after, i);
  }

  lemma {:induction false} RunShort(cfg: GuardConfig, start: AgentState, nodes: seq<Node>, after: seq<AgentState>,
                                    i: nat)
    requires IsRun(cfg, start, nodes, after) && i < |nodes|
    ensures i + Remaining(cfg, nodes[i], Before(start, after, i).reviseAttempts) <= Longest(cfg)
    ensures Before(start, after, i).reviseAttempts >= 0
  {
    if i > 0 {
      RunShort(cfg, start, nodes, after, i - 1);
      assert VisitOk(cfg, start, nodes, after, i - 1) && VisitOk(cfg, start, nodes, after, i);
      if nodes[i - 1] == Revise {
        ReviseBelowLimit(cfg, start, nodes, after, i - 1);
      }
      RemainingFalls(cfg, nodes[i - 1], Before(start, after, i - 1), after[i - 1]);
    }
  }

  /**
    Every run ends within 4m + 6 node visits, m the limit on revisions (at least 1), and within
    4m + 5 if there is no interacting after a publish.
   */
  lemma RunBounded(cfg: GuardConfig, start: AgentState, nodes: seq<Node>, after: seq<AgentState>)
    requires IsRun(cfg, start, nodes, after)
    ensures |nodes| <= 4 * Max(1, cfg.reviseMaxAttempts) + if cfg.enablePostPublishInteract then 6 else 5
  {
    RunShort(cfg, start, nodes, after, |nodes| - 1);
    assert VisitOk(cfg, start, nodes, after, |nodes| - 1);
  }

  /** How often the longest run is sent back. */
  function Loops(cfg: GuardConfig): nat { Max(1, cfg.reviseMaxAttempts) - 1 }

  /**
    The longest run: every draft but the last is sent back, the last is published and fails to
    interact, or fails to be published where there is no interacting.
   */
  function LongestNode(cfg: GuardConfig, i: nat): Node
  {
    var last := 4 * Loops(cfg);
    if i == 0 then Research
    else if i <= last then [Revise, Draft, ImageGen, Review][i % 4]
    else
      match i - last
      case 1 => Draft
      case 2 => ImageGen
      case 3 => Review
      case 4 => Schedule
      case 5 => Dispatch
      case 6 => Publish
      case 7 => if cfg.enablePostPublishInteract then Interact else Alert
      case 8 => if cfg.enablePostPublishInteract then Alert else Idle
      case _ => Idle
  }

  function LongestState(cfg: GuardConfig, i: nat): AgentState
  {
    var last := 4 * Loops(cfg);
    AgentState(None, ["topic"], if i <= last then ["word"] else [], Some(cfg.maxDupScore - 1.0),
               Some(cfg.minHumanScore), if i <= last then i / 4 else Loops(cfg), Some(Slot("d", "a")), ["task"],
               cfg.enablePostPublishInteract, Some(["note"]), None, map[], None, ["image"], None, true)
  }

  lemma LongestReasons(cfg: GuardConfig, i: nat)
    ensures ReviewReasons(LongestState(cfg, i), cfg) == [] <==> i > 4 * Loops(cfg)
  {
  }

  /** Up to the last revision. */
  lemma LongestLoop(cfg: GuardConfig, i: nat)
    requires i < 4 * Loops(cfg)
    ensures Successor(LongestNode(cfg, i), LongestState(cfg, i), cfg) == LongestNode(cfg, i + 1)
  {
    LongestReasons(cfg, i);
  }

  /** From the last draft on. */
  lemma LongestEnd(cfg: GuardConfig, i: nat)
    requires 4 * Loops(cfg) <= i < Longest(cfg) - 1
    ensures Successor(LongestNode(cfg, i), LongestState(cfg, i), cfg) == LongestNode(cfg, i + 1)
  {
    LongestReasons(cfg, i);
  }

  lemma LongestWrites(cfg: GuardConfig, i: nat)
    ensures LongestNode(cfg, i) != End
    ensures Writes(LongestNode(cfg, i), LongestState(cfg, if i == 0 then 0 else i - 1), LongestState(cfg, i))
  {
  }

  lemma LongestVisit(cfg: GuardConfig, nodes: seq<Node>, after: seq<AgentState>, i: nat)
    requires |nodes| == |after| == Longest(cfg) && i < |nodes|
    requires forall j | 0 <= j < |nodes| :: nodes[j] == LongestNode(cfg, j)
    requires forall j | 0 <= j < |nodes| :: after[j] == LongestState(cfg, j)
    ensures VisitOk(cfg, LongestState(cfg, 0), nodes, after, i)
  {
    LongestWrites(cfg, i);
    if i == 0 {
      assert Upper("RESEARCH") == "RESEARCH" && "RESEARCH"[0] != "ANALYZE"[0];
    } else if i - 1 < 4 * Loops(cfg) {
      LongestLoop(cfg, i - 1);
    } else {
      LongestEnd(cfg, i - 1);
    }
  }

  /** The bound is met by every configuration. */
  lemma BoundMet(cfg: GuardConfig) returns (start: AgentState, nodes: seq<Node>, after: seq<AgentState>)
    ensures IsRun(cfg, start, nodes, after)
    ensures |nodes| == 4 * Max(1, cfg.reviseMaxAttempts) + if cfg.enablePostPublishInteract then 6 else 5
  {
    start := LongestState(cfg, 0);
    nodes := seq(Longest(cfg), i requires 0 <= i => LongestNode(cfg, i));
    after := seq(Longest(cfg), i requires 0 <= i => LongestState(cfg, i));
    forall i | 0 <= i < |nodes|
      ensures VisitOk(cfg, start, nodes, after, i)
    {
      LongestVisit(cfg, nodes, after, i);
    }
  }

  function Visits(nodes: seq<Node>, node: Node, n: nat): nat
    requires n <= |nodes|
  {
    if n == 0 then 0 else Visits(nodes, node, n - 1) + if nodes[n - 1] == node then 1 else 0
  }

  /** The attempts count the visits of REVISE, which never exceed the limit. */
  lemma {:induction false} RevisionsCounted(cfg: GuardConfig, start: AgentState, nodes: seq<Node>,
                                            after: seq<AgentState>, n: nat)
    requires IsRun(cfg, start, nodes, after) && n <= |nodes|
    ensures Before(start, after, n).reviseAttempts == start.reviseAttempts + Visits(nodes, Revise, n)
    ensures Visits(nodes, Revise, n) <= Max(0, cfg.reviseMaxAttempts - start.reviseAttempts)
  {
    if n > 0 {
      RevisionsCounted(cfg, start, nodes, after, n - 1);
      assert VisitOk(cfg, start, nodes, after, n - 1);
      if nodes[n - 1] == Revise {
        ReviseBelowLimit(cfg, start, nodes, after, n - 1);
      }
    }
  }

  /** Progress through the graph; only the revise cycle stays on one level. */
  function Level(node: Node): nat
  {
    match node
    case Research => 0
    case Draft => 1
    case ImageGen => 1
    case Review => 1
    case Revise => 1
    case Schedule => 2
    case Dispatch => 3
    case Publish => 4
    case Interact => 5
    case Collect => 5
    case Analyze => 6
    case Alert => 6
    case Idle => 7
    case End => 8
  }

  lemma {:induction false} LevelsRise(cfg: GuardConfig, start: AgentState, nodes: seq<Node>, after: seq<AgentState>,
                                      i: nat, j: nat)
    requires IsRun(cfg, start, nodes, after) && i < j < |nodes|
    ensures Level(nodes[i]) <= Level(nodes[j])
    ensures Level(nodes[i]) != 1 ==> Level(nodes[i]) < Level(nodes[j])
  {
    assert VisitOk(cfg, start, nodes, after, j);
    if i < j - 1 {
      LevelsRise(cfg, start, nodes, after, i, j - 1);
    }
  }

  /** Nothing is published twice in a run. */
  lemma PublishOnce(cfg: GuardConfig, start: AgentState, nodes: seq<Node>, after: seq<AgentState>, i: nat, j: nat)
    requires IsRun(cfg, start, nodes, after) && i < |nodes| && j < |nodes|
    requires nodes[i] == Publish && nodes[j] == Publish
    ensures i == j
  {
    if i < j {
      LevelsRise(cfg, start, nodes, after, i, j);
    } else if j < i {
      LevelsRise(cfg, start, nodes, after, j, i);
    }
  }

  /**
    PUBLISH is dominated by a passed review, an assigned slot and a created task: the three
    nodes before it are REVIEW, SCHEDULE and DISPATCH, no review comes later, and each left
    behind the state that opens the next gate.
   */
  lemma PublishDominated(cfg: GuardConfig, start: AgentState, nodes: seq<Node>, after: seq<AgentState>, i: nat)
    requires IsRun(cfg, start, nodes, after) && i < |nodes| && nodes[i] == Publish
    ensures i >= 3 && nodes[i - 3] == Review && nodes[i - 2] == Schedule && nodes[i - 1] == Dispatch
    ensures var reviewed, slot := after[i - 3], after[i - 2].slot;
            && reviewed.forbiddenHits == []
            && (reviewed.scoreDup.Some? ==> reviewed.scoreDup.value < cfg.maxDupScore)
            && (reviewed.scoreHuman.Some? ==> reviewed.scoreHuman.value >= cfg.minHumanScore)
            && slot.Some? && slot.value.deviceId != "" && slot.value.accountId != ""
            && after[i - 1].createdTaskIds != []
    ensures forall j | i - 3 < j < |nodes| :: nodes[j] != Review
  {
    assert VisitOk(cfg, start, nodes, after, i);
    assert VisitOk(cfg, start, nodes, after, i - 1);
    assert VisitOk(cfg, start, nodes, after, i - 2);
    forall j | i - 3 < j < |nodes| ensures nodes[j] != Review {
      if j > i - 2 {
        LevelsRise(cfg, start, nodes, after, i - 2, j);
      }
    }
  }

  /** COLLECT has no way in. */
  lemma CollectUnreachable(cfg: GuardConfig, start: AgentState, nodes: seq<Node>, after: seq<AgentState>, i: nat)
    requires IsRun(cfg, start, nodes, after) && i < |nodes|
    ensures nodes[i] != Collect
  {
    assert VisitOk(cfg, start, nodes, after, i);
  }

  /** A run that starts with the analysis does nothing else. */
  lemma AnalyzeNeverPublishes(cfg: GuardConfig, start: AgentState, nodes: seq<Node>, after: seq<AgentState>)
    requires IsRun(cfg, start, nodes, after) && IdleToAnalyze(start)
    ensures nodes <= [Analyze, Idle]
  {
    assert VisitOk(cfg, start, nodes, after, 0);
    assert |nodes| > 1 ==> VisitOk(cfg, start, nodes, after, 1) && nodes[1] == Idle;
    assert |nodes| > 2 ==> VisitOk(cfg, start, nodes, after, 2);
  }

  /**
    REVIEW has exactly one way out: a draft without forbidden words, less like another than the
    limit and at least as human as the limit goes on; any other is revised up to the limit.
   */
  lemma ReviewRoutesExclusive(s: AgentState, cfg: GuardConfig)
    ensures var passed := s.forbiddenHits == []
                          && (if s.scoreDup.Some? then s.scoreDup.value else 0.0) < cfg.maxDupScore
                          && (if s.scoreHuman.Some? then s.scoreHuman.value else 1.0) >= cfg.minHumanScore;
            && (Successor(Review, s, cfg) == Schedule <==> passed)
            && (Successor(Review, s, cfg) == Alert <==> !passed && s.reviseAttempts >= cfg.reviseMaxAttempts)
            && (Successor(Review, s, cfg) == Revise <==> !passed && s.reviseAttempts < cfg.reviseMaxAttempts)
    ensures Successor(Review, s, cfg) == Schedule <==> CanReviewToSchedule(s, cfg)
    ensures Successor(Review, s, cfg) == Alert <==> CanReviewToAlert(s, cfg)
    ensures Successor(Review, s, cfg) == Revise <==> CanReviewToRevise(s, cfg)
  {
  }

  /** The ways out of the nodes after a passed review. */
  lemma PublishingRoutes(s: AgentState, cfg: GuardConfig)
    ensures Successor(Schedule, s, cfg)
            == if s.slot.Some? && s.slot.value.deviceId != "" && s.slot.value.accountId != "" then Dispatch else Alert
    ensures Successor(Dispatch, s, cfg) == if s.createdTaskIds != [] then Publish else Alert
    ensures Successor(Publish, s, cfg) == Alert <==> !s.publishOk
    ensures Successor(Publish, s, cfg) == Interact <==>
            s.publishOk && cfg.enablePostPublishInteract && s.interactPlan.Some? && s.interactPlan.value != []
    ensures Successor(Publish, s, cfg) in {Alert, Interact, Idle}
    ensures Successor(Interact, s, cfg) in {Alert, Idle}
    ensures Successor(Interact, s, cfg) == Idle <==>
            && s.interactResults.Some? && s.interactResults.value.succeeded.Some?
            && (|| s.interactResults.value.succeeded.value != 0
                || s.interactResults.value.failed.None? || s.interactResults.value.failed.value <= 0)
  {
  }

  /** The ways out of the nodes that a draft, an analysis or an alert goes through. */
  lemma OtherRoutes(s: AgentState, cfg: GuardConfig)
    ensures Successor(Research, s, cfg) == if s.candidates == [] then Alert else Draft
    ensures Successor(Draft, s, cfg) == ImageGen && Successor(Analyze, s, cfg) == Idle && Successor(Idle, s, cfg) == End
    ensures Successor(Revise, s, cfg) == if s.reviseAttempts < cfg.reviseMaxAttempts then Draft else Alert
    ensures Successor(Collect, s, cfg) == if cfg.requireNoteMetrics && s.noteMetrics == map[] then Alert else Analyze
    ensures Successor(Alert, s, cfg) == if s.alertAck then Idle else End
  {
  }

  /** A draft without images is reviewed unless the fallback is to stop; a forced image error alerts. */
  lemma ImageRoutes(s: AgentState, cfg: GuardConfig)
    ensures Successor(ImageGen, s, cfg) == Review <==>
            && !(s.lastError.Some? && s.lastError.value.forceAlert && "IMAGE_GEN_" <= s.lastError.value.code)
            && (s.draftImages != [] || s.imageGenFallback != Some("idle"))
    ensures Successor(ImageGen, s, cfg) in {Review, Alert}
  {
    assert "no_image"[0] != "idle"[0];
  }

  /** A run starts with the analysis exactly if its entry reads ANALYZE in upper or lower case letters. */
  lemma EntryExactly(s: AgentState)
    ensures RouteIdle(s) == Analyze <==>
            && s.entry.Some? && |s.entry.value| == 7
            && s.entry.value[0] in {'A', 'a'} && s.entry.value[1] in {'N', 'n'} && s.entry.value[2] in {'A', 'a'}
            && s.entry.value[3] in {'L', 'l'} && s.entry.value[4] in {'Y', 'y'} && s.entry.value[5] in {'Z', 'z'}
            && s.entry.value[6] in {'E', 'e'}
    ensures RouteIdle(s) in {Analyze, Research}
  {
    assert |"RESEARCH"| == 8;
    if s.entry.Some? && |s.entry.value| == 7 {
      var entry := s.entry.value;
      forall i | 0 <= i < 7
        ensures Upper(entry)[i] == "ANALYZE"[i] <==> entry[i] == "ANALYZE"[i] || entry[i] == "analyze"[i]
      {
        RaisedTo(entry[i], "analyze"[i]);
      }
      assert Upper(entry) == "ANALYZE" <==> forall i | 0 <= i < 7 :: Upper(entry)[i] == "ANALYZE"[i];
    }
  }

  lemma RaisedTo(c: char, lower: char)
    requires 'a' <= lower <= 'z'
    ensures (if 'a' <= c <= 'z' then c - 'a' + 'A' else c) == lower - 'a' + 'A'
            <==> c == lower || c == lower - 'a' + 'A'
  {
  }
}
