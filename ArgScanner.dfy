/**
 * The argument scanner of `main` (CommandLineClient.java, lines 89-133):
 * `<host> <port> [-pub <type> [<key> <val>]...] [-sub <id>...] [-rule <path>]`,
 * the three options in any order, each any number of times.
 *
 * Scan and its helpers state what one run of the scanner produces; ScanArgs
 * is the index-driven loop itself, proved to produce exactly that.
 */
module ArgScanner {
  import opened Wrappers
  import opened IntParsing

  /** What a successful scan hands to the rest of `main`. */
  datatype Config = Config(
    host: string,
    port: int,
    subscriptions: seq<int>,
    notifications: map<int, map<string, string>>,
    sendRule: bool,
    rulePath: string)

  /**
   * Parsed: the loop ended normally. UsageExit: printUsageAndExit, exit status
   * -1 (too few arguments, or a NumberFormatException). OutOfBounds: an
   * ArrayIndexOutOfBoundsException at that index, which `main` does not
   * catch. Diverges: an iteration starting at that index changes nothing, so
   * the loop runs forever.
   */
  datatype ScanOutcome =
    | Parsed(config: Config)
    | UsageExit
    | OutOfBounds(index: nat)
    | Diverges(at: nat)

  /** The state after part of an iteration, or how the scan ended within it. */
  datatype Step = Next(next: nat, cfg: Config) | Stop(outcome: ScanOutcome)

  /** The key/value loop of `-pub`: its stopping index and map, or a key without a value. */
  datatype PairsResult = PairsDone(next: nat, pairs: map<string, string>) | PairsDangling(index: nat)

  /** The id loop of `-sub`: its stopping index and ids, or the token parseInt rejected. */
  datatype IdsResult = IdsDone(next: nat, ids: seq<int>) | IdsBad(index: nat)

  /** String.startsWith("-"). */
  predicate StartsWithDash(tok: string) {
    |tok| > 0 && tok[0] == '-'
  }

  /** The tokens at which an iteration of the scanning loop does something. */
  predicate IsScanFlag(tok: string) {
    tok == "-pub" || tok == "-sub" || tok == "-rule"
  }

  /** The ids of the tokens args[lo..hi], which all parse as `int`, in order. */
  function IdsBetween(args: seq<string>, lo: nat, hi: nat): (r: seq<int>)
    requires lo <= hi <= |args|
    requires forall k :: lo <= k < hi ==> ParseInt(args[k]).Some?
    decreases hi - lo
    ensures |r| == hi - lo
    ensures forall k :: 0 <= k < |r| ==> r[k] == ParseInt(args[lo + k]).value
  {
    if lo == hi then [] else [ParseInt(args[lo]).value] + IdsBetween(args, lo + 1, hi)
  }

  /**
   * Lines 112-115: from `i`, put key args[i] -> value args[i+1] while the key
   * token does not start with '-'. Only key positions are tested, so a value
   * may start with '-'; a key in the last position has no value.
   */
  function PubPairs(args: seq<string>, i: nat, m: map<string, string>): (r: PairsResult)
    requires i <= |args|
    decreases |args| - i
    ensures r.PairsDone? ==> i <= r.next <= |args|
    ensures r.PairsDangling? ==> r.index == |args|
  {
    if i == |args| || StartsWithDash(args[i]) then PairsDone(i, m)
    else if i + 1 == |args| then PairsDangling(i + 1)
    else PubPairs(args, i + 2, m[args[i] := args[i + 1]])
  }

  /**
   * The pair loop stops at the first key position holding a token that
   * starts with '-', or at the end; it consumes whole pairs, and fails on
   * the index past the end exactly when a key is left without its value.
   */
  lemma {:induction false} PubPairsStops(args: seq<string>, i: nat, m: map<string, string>)
    requires i <= |args|
    decreases |args| - i
    ensures var r := PubPairs(args, i, m);
      && (r.PairsDone? ==> (r.next - i) % 2 == 0)
      && (r.PairsDone? ==> r.next == |args| || StartsWithDash(args[r.next]))
      && (r.PairsDone? ==> forall p :: i <= p < r.next && (p - i) % 2 == 0 ==> !StartsWithDash(args[p]))
      && (r.PairsDangling? ==> r.index == |args| && (r.index - i) % 2 == 1)
      && (r.PairsDangling? ==> forall p :: i <= p < |args| && (p - i) % 2 == 0 ==> !StartsWithDash(args[p]))
  {
    if i < |args| && !StartsWithDash(args[i]) && i + 1 < |args| {
      PubPairsStops(args, i + 2, m[args[i] := args[i + 1]]);
    }
  }

  /**
   * The keys of the finished map: the earlier keys and every key token the
   * loop consumed.
   */
  lemma {:induction false} PubPairsKeys(args: seq<string>, i: nat, m: map<string, string>)
    requires i <= |args| && PubPairs(args, i, m).PairsDone?
    decreases |args| - i
    ensures PubPairs(args, i, m).pairs.Keys
         == m.Keys + set p | i <= p < PubPairs(args, i, m).next && (p - i) % 2 == 0 :: args[p]
  {
    var r := PubPairs(args, i, m);
    if r.next > i {
      PubPairsKeys(args, i + 2, m[args[i] := args[i + 1]]);
      assert (set p | i <= p < r.next && (p - i) % 2 == 0 :: args[p])
          == {args[i]} + set p | i + 2 <= p < r.next && (p - (i + 2)) % 2 == 0 :: args[p];
    }
  }

  /**
   * A repeated key keeps the value of its last pair: if no later key
   * position before the stop holds the same key, the map holds the value
   * that follows key position `p`.
   */
  lemma {:induction false} PubPairsLastWins(args: seq<string>, i: nat, m: map<string, string>, p: nat)
    requires i <= |args| && PubPairs(args, i, m).PairsDone?
    requires i <= p < PubPairs(args, i, m).next && (p - i) % 2 == 0
    requires forall q :: p < q < PubPairs(args, i, m).next && (q - i) % 2 == 0 ==> args[q] != args[p]
    decreases |args| - i
    ensures p + 1 < |args|
    ensures args[p] in PubPairs(args, i, m).pairs && PubPairs(args, i, m).pairs[args[p]] == args[p + 1]
  {
    var m' := m[args[i] := args[i + 1]];
    if p == i {
      PubPairsKeeps(args, i + 2, m', args[i]);
    } else {
      PubPairsLastWins(args, i + 2, m', p);
    }
  }

  /** A key no later key position mentions keeps the value it had. */
  lemma {:induction false} PubPairsKeeps(args: seq<string>, i: nat, m: map<string, string>, key: string)
    requires i <= |args| && PubPairs(args, i, m).PairsDone? && key in m
    requires forall q :: i <= q < PubPairs(args, i, m).next && (q - i) % 2 == 0 ==> args[q] != key
    decreases |args| - i
    ensures key in PubPairs(args, i, m).pairs && PubPairs(args, i, m).pairs[key] == m[key]
  {
    if PubPairs(args, i, m).next > i {
      PubPairsKeeps(args, i + 2, m[args[i] := args[i + 1]], key);
    }
  }

  /**
   * Lines 119-121: from `i`, parse every token up to the next one starting
   * with '-' as an id and append it to `ids`.
   */
  function SubIds(args: seq<string>, i: nat, ids: seq<int>): (r: IdsResult)
    requires i <= |args|
    decreases |args| - i
    ensures r.IdsDone? ==> i <= r.next <= |args|
  {
    if i == |args| || StartsWithDash(args[i]) then IdsDone(i, ids)
    else match ParseInt(args[i])
      case None => IdsBad(i)
      case Some(id) => SubIds(args, i + 1, ids + [id])
  }

  /**
   * `-sub` appends, in order, the id of every token up to the next one that
   * starts with '-' (or the end); if one of those tokens is not an `int`, the
   * first such token stops the scan.
   */
  lemma {:induction false} SubIdsCollects(args: seq<string>, i: nat, ids: seq<int>)
    requires i <= |args|
    decreases |args| - i
    ensures var r := SubIds(args, i, ids);
      && (r.IdsDone? ==> r.next == |args| || StartsWithDash(args[r.next]))
      && (r.IdsDone? ==> forall k :: i <= k < r.next ==> !StartsWithDash(args[k]) && ParseInt(args[k]).Some?)
      && (r.IdsBad? ==> i <= r.index < |args| && !StartsWithDash(args[r.index]) && ParseInt(args[r.index]).None?)
      && (r.IdsBad? ==> forall k :: i <= k < r.index ==> !StartsWithDash(args[k]) && ParseInt(args[k]).Some?)
  {
    if i < |args| && !StartsWithDash(args[i]) && ParseInt(args[i]).Some? {
      var id := ParseInt(args[i]).value;
      SubIdsCollects(args, i + 1, ids + [id]);
    }
  }

  /** What a completed `-sub` appends: exactly the ids of the tokens it consumed, in order. */
  lemma {:induction false} SubIdsAppends(args: seq<string>, i: nat, ids: seq<int>)
    requires i <= |args| && SubIds(args, i, ids).IdsDone?
    decreases |args| - i
    ensures forall k :: i <= k < SubIds(args, i, ids).next ==> ParseInt(args[k]).Some?
    ensures SubIds(args, i, ids).ids == ids + IdsBetween(args, i, SubIds(args, i, ids).next)
  {
    var r := SubIds(args, i, ids);
    if r.next > i {
      var id := ParseInt(args[i]).value;
      assert r == SubIds(args, i + 1, ids + [id]);
      SubIdsAppends(args, i + 1, ids + [id]);
      assert ids + [id] + IdsBetween(args, i + 1, r.next) == ids + ([id] + IdsBetween(args, i + 1, r.next));
    }
  }

  /**
   * Lines 109-115, from the token after "-pub": the event type, then a fresh
   * map for it that replaces any earlier one, filled by PubPairs.
   */
  function PubBlock(args: seq<string>, i: nat, cfg: Config): (r: Step)
    requires i <= |args|
    ensures r.Next? ==> i < r.next <= |args|
    ensures r.Stop? ==> r.outcome == UsageExit || r.outcome == OutOfBounds(|args|)
  {
    if i == |args| then Stop(OutOfBounds(i))
    else match ParseInt(args[i])
      case None => Stop(UsageExit)
      case Some(t) =>
        match PubPairs(args, i + 1, map[])
        case PairsDangling(k) => Stop(OutOfBounds(k))
        case PairsDone(j, m) => Next(j, cfg.(notifications := cfg.notifications[t := m]))
  }

  /** Lines 118-121, from the token after "-sub". */
  function SubBlock(args: seq<string>, i: nat, cfg: Config): (r: Step)
    requires i <= |args|
    ensures r.Next? ==> i <= r.next <= |args|
    ensures r.Stop? ==> r.outcome == UsageExit
  {
    match SubIds(args, i, cfg.subscriptions)
    case IdsBad(_) => Stop(UsageExit)
    case IdsDone(j, ids) => Next(j, cfg.(subscriptions := ids))
  }

  /** Lines 124-127, from the token after "-rule": the rule file's path. */
  function RuleBlock(args: seq<string>, i: nat, cfg: Config): (r: Step)
    requires i <= |args|
    ensures r.Next? ==> r.next == i + 1 <= |args|
    ensures r.Stop? ==> r.outcome == OutOfBounds(|args|)
  {
    if i == |args| then Stop(OutOfBounds(i))
    else Next(i + 1, cfg.(sendRule := true, rulePath := args[i]))
  }

  /** The "-pub" part of an iteration starting at `i`. */
  function PubPart(args: seq<string>, i: nat, cfg: Config): (r: Step)
    requires i < |args|
    ensures r.Next? ==> i <= r.next <= |args|
    ensures args[i] == "-pub" ==> r.Stop? || i + 1 < r.next
    ensures args[i] != "-pub" ==> r == Next(i, cfg)
    ensures r.Stop? ==> r.outcome == UsageExit || r.outcome == OutOfBounds(|args|)
    ensures r.Next? ==> r.cfg == cfg.(notifications := r.cfg.notifications)
  {
    if args[i] == "-pub" then PubBlock(args, i + 1, cfg) else Next(i, cfg)
  }

  /** The "-sub" part of an iteration, at the index the "-pub" part left. */
  function SubPart(args: seq<string>, i: nat, cfg: Config): (r: Step)
    requires i <= |args|
    ensures r.Next? ==> i <= r.next <= |args|
    ensures i < |args| && args[i] == "-sub" ==> r.Stop? || i < r.next
    ensures r.Stop? ==> r.outcome == UsageExit
    ensures r.Next? ==> r.cfg == cfg.(subscriptions := r.cfg.subscriptions)
  {
    if i < |args| && args[i] == "-sub" then SubBlock(args, i + 1, cfg) else Next(i, cfg)
  }

  /** The "-rule" part of an iteration, at the index the "-sub" part left. */
  function RulePart(args: seq<string>, i: nat, cfg: Config): (r: Step)
    requires i <= |args|
    ensures r.Next? ==> i <= r.next <= |args|
    ensures i < |args| && args[i] == "-rule" ==> r.Stop? || (r.next == i + 2 && r.cfg.sendRule && r.cfg.rulePath == args[i + 1])
    ensures r.Stop? ==> r.outcome == OutOfBounds(|args|)
    ensures r.Next? ==> r.cfg == cfg.(sendRule := r.cfg.sendRule, rulePath := r.cfg.rulePath)
  {
    if i < |args| && args[i] == "-rule" then RuleBlock(args, i + 1, cfg) else Next(i, cfg)
  }

  /**
   * One iteration of the loop at lines 106-129: the "-pub", "-sub" and
   * "-rule" tests in that order, each at the index the previous one left.
   * An iteration starting at a flag advances; one starting anywhere else
   * leaves the index and the whole configuration as they were.
   */
  function Iteration(args: seq<string>, i: nat, cfg: Config): (r: Step)
    requires i < |args|
    ensures r.Next? ==> i <= r.next <= |args|
    ensures IsScanFlag(args[i]) ==> r.Stop? || i < r.next
    ensures !IsScanFlag(args[i]) ==> r == Next(i, cfg)
    ensures r.Stop? ==> r.outcome == UsageExit || r.outcome == OutOfBounds(|args|)
  {
    match PubPart(args, i, cfg)
    case Stop(o) => Stop(o)
    case Next(i1, c1) =>
      match SubPart(args, i1, c1)
      case Stop(o) => Stop(o)
      case Next(i2, c2) => RulePart(args, i2, c2)
  }

  /** The scanning loop from index `i` with the configuration so far. */
  function ScanFrom(args: seq<string>, i: nat, cfg: Config): (r: ScanOutcome)
    requires i <= |args|
    decreases |args| - i
    ensures r.Diverges? ==> i <= r.at < |args| && !IsScanFlag(args[r.at])
    ensures r.OutOfBounds? ==> r.index == |args|
  {
    if i == |args| then Parsed(cfg)
    else match Iteration(args, i, cfg)
      case Stop(o) => o
      case Next(j, c) => if j == i then Diverges(i) else ScanFrom(args, j, c)
  }

  /** The configuration before the loop: nothing subscribed, published or to be sent. */
  function InitialConfig(host: string, port: int): Config {
    Config(host, port, [], map[], false, "")
  }

  /** Lines 100-129: the whole scan of `args`. */
  function Scan(args: seq<string>): (r: ScanOutcome)
    ensures |args| < 2 ==> r == UsageExit
    ensures r.OutOfBounds? ==> r.index == |args|
    ensures r.Diverges? ==> 2 <= r.at < |args| && !IsScanFlag(args[r.at])
  {
    if |args| < 2 then UsageExit
    else match ParseInt(args[1])
      case None => UsageExit
      case Some(port) => ScanFrom(args, 2, InitialConfig(args[0], port))
  }

  /** Lines 109-115, from the token after "-pub": the type, then the key/value loop. */
  method ReadPub(args: seq<string>, i: nat, cfg: Config) returns (r: Step)
    requires i <= |args|
    ensures r == PubBlock(args, i, cfg)
  {
    var j := i;
    if j == |args| {
      return Stop(OutOfBounds(j));
    }
    var current := ParseInt(args[j]);
    j := j + 1;
    if current.None? {
      return Stop(UsageExit);
    }
    var t := current.value;
    var notifications := cfg.notifications[t := map[]];
    while j < |args| && !StartsWithDash(args[j])
      invariant i + 1 <= j <= |args|
      invariant t in notifications && notifications == cfg.notifications[t := notifications[t]]
      invariant PubPairs(args, j, notifications[t]) == PubPairs(args, i + 1, map[])
      decreases |args| - j
    {
      var key := args[j];
      j := j + 1;
      if j == |args| {
        return Stop(OutOfBounds(j));
      }
      var value := args[j];
      j := j + 1;
      notifications := notifications[t := notifications[t][key := value]];
    }
    return Next(j, cfg.(notifications := notifications));
  }

  /** Lines 118-121, from the token after "-sub": the id loop. */
  method ReadSub(args: seq<string>, i: nat, cfg: Config) returns (r: Step)
    requires i <= |args|
    ensures r == SubBlock(args, i, cfg)
  {
    var j := i;
    var subscriptions := cfg.subscriptions;
    while j < |args| && !StartsWithDash(args[j])
      invariant i <= j <= |args|
      invariant SubIds(args, j, subscriptions) == SubIds(args, i, cfg.subscriptions)
      decreases |args| - j
    {
      var id := ParseInt(args[j]);
      j := j + 1;
      if id.None? {
        return Stop(UsageExit);
      }
      subscriptions := subscriptions + [id.value];
    }
    return Next(j, cfg.(subscriptions := subscriptions));
  }

  /** One pass of the loop at lines 106-129, starting at `i`. */
  method ScanIteration(args: seq<string>, i: nat, cfg: Config) returns (step: Step)
    requires i < |args|
    ensures step == Iteration(args, i, cfg)
  {
    step := Next(i, cfg);
    if args[i] == "-pub" {
      step := ReadPub(args, i + 1, cfg);
    }
    assert step == PubPart(args, i, cfg);
    if step.Stop? {
      return;
    }
    ghost var afterPub := step;
    var j, c := step.next, step.cfg;
    if j < |args| && args[j] == "-sub" {
      step := ReadSub(args, j + 1, c);
    }
    assert step == SubPart(args, afterPub.next, afterPub.cfg);
    if step.Stop? {
      return;
    }
    j, c := step.next, step.cfg;
    if j < |args| && args[j] == "-rule" {
      j := j + 1;
      if j == |args| {
        return Stop(OutOfBounds(j));
      }
      c := c.(sendRule := true, rulePath := args[j]);  // readFile(args[j]) is reduced to the path
      j := j + 1;
    }
    step := Next(j, c);
  }

  /** `main`'s scanning code, with `i` advanced as the source advances it. */
  method ScanArgs(args: seq<string>) returns (out: ScanOutcome)
    ensures out == Scan(args)
  {
    if |args| < 2 {
      return UsageExit;
    }
    var i := 0;
    var serverHost := args[i];
    i := i + 1;
    var serverPort := ParseInt(args[i]);
    i := i + 1;
    if serverPort.None? {
      return UsageExit;
    }
    var cfg := InitialConfig(serverHost, serverPort.value);
    while i < |args|
      invariant 2 <= i <= |args|
      invariant ScanFrom(args, i, cfg) == Scan(args)
      decreases |args| - i
    {
      var step := ScanIteration(args, i, cfg);
      if step.Stop? {
        return step.outcome;
      }
      if step.next == i {
        return Diverges(i);
      }
      i, cfg := step.next, step.cfg;
    }
    return Parsed(cfg);
  }

  /** Fewer than two arguments: usage and exit. */
  lemma TooFewArguments(args: seq<string>)
    requires |args| < 2
    ensures Scan(args) == UsageExit
  {
  }

  /** A port that is not an `int`: usage and exit. */
  lemma BadPort(args: seq<string>)
    requires |args| >= 2 && ParseInt(args[1]).None?
    ensures Scan(args) == UsageExit
  {
  }

  /** A "-pub" type that is not an `int`: usage and exit; a "-pub" with nothing after it: index out of bounds. */
  lemma BadPubType(args: seq<string>, i: nat, cfg: Config)
    requires i < |args| && args[i] == "-pub"
    ensures i + 1 < |args| && ParseInt(args[i + 1]).None? ==> ScanFrom(args, i, cfg) == UsageExit
    ensures i + 1 == |args| ==> ScanFrom(args, i, cfg) == OutOfBounds(|args|)
  {
  }

  /**
   * A "-pub" whose key/value tokens end in a key without its value ends in
   * an index out of bounds at the end of the arguments.
   */
  lemma OddPubPairs(args: seq<string>, i: nat, cfg: Config)
    requires i + 1 < |args| && args[i] == "-pub" && ParseInt(args[i + 1]).Some?
    requires PubPairs(args, i + 2, map[]).PairsDangling?
    ensures ScanFrom(args, i, cfg) == OutOfBounds(|args|)
  {
  }

  /**
   * A "-sub" followed, before any token starting with '-', by a token that is
   * not an `int`: usage and exit.
   */
  lemma BadSubId(args: seq<string>, i: nat, cfg: Config, k: nat)
    requires i < |args| && args[i] == "-sub"
    requires i < k < |args| && !StartsWithDash(args[k]) && ParseInt(args[k]).None?
    requires forall q :: i < q < k ==> !StartsWithDash(args[q])
    ensures ScanFrom(args, i, cfg) == UsageExit
  {
    SubIdsCollects(args, i + 1, cfg.subscriptions);
    assert SubIds(args, i + 1, cfg.subscriptions).IdsBad?;
    assert PubPart(args, i, cfg) == Next(i, cfg);
    assert SubPart(args, i, cfg) == Stop(UsageExit);
  }

  /**
   * The same failure for a "-sub" reached in the iteration of a "-pub": the
   * "-sub" test runs at the index the "-pub" block left.
   */
  lemma BadSubIdAfterPub(args: seq<string>, i: nat, cfg: Config, k: nat)
    requires i < |args| && PubPart(args, i, cfg).Next?
    requires var j := PubPart(args, i, cfg).next;
      && j < |args| && args[j] == "-sub"
      && j < k < |args| && !StartsWithDash(args[k]) && ParseInt(args[k]).None?
      && forall q :: j < q < k ==> !StartsWithDash(args[q])
    ensures ScanFrom(args, i, cfg) == UsageExit
  {
    var p := PubPart(args, i, cfg);
    SubIdsCollects(args, p.next + 1, p.cfg.subscriptions);
    assert SubIds(args, p.next + 1, p.cfg.subscriptions).IdsBad?;
    assert SubPart(args, p.next, p.cfg) == Stop(UsageExit);
  }

  /** Every number in the configuration fits in an `int`. */
  ghost predicate Int32Config(cfg: Config) {
    && InInt32(cfg.port)
    && (forall k :: 0 <= k < |cfg.subscriptions| ==> InInt32(cfg.subscriptions[k]))
    && (forall t :: t in cfg.notifications ==> InInt32(t))
  }

  /**
   * What the loop may do to the configuration: host and port stay, ids are
   * only appended, and every number stays an `int`.
   */
  ghost predicate Evolves(before: Config, after: Config) {
    && after.host == before.host && after.port == before.port
    && before.subscriptions <= after.subscriptions
    && (Int32Config(before) ==> Int32Config(after))
  }

  lemma PubPartEvolves(args: seq<string>, i: nat, cfg: Config)
    requires i < |args|
    ensures PubPart(args, i, cfg).Next? ==> Evolves(cfg, PubPart(args, i, cfg).cfg)
    ensures PubPart(args, i, cfg).Next? ==> PubPart(args, i, cfg).cfg.subscriptions == cfg.subscriptions
  {
  }

  lemma SubPartEvolves(args: seq<string>, i: nat, cfg: Config)
    requires i <= |args|
    ensures SubPart(args, i, cfg).Next? ==> Evolves(cfg, SubPart(args, i, cfg).cfg)
  {
    if i < |args| && args[i] == "-sub" && SubIds(args, i + 1, cfg.subscriptions).IdsDone? {
      var r := SubIds(args, i + 1, cfg.subscriptions);
      SubIdsAppends(args, i + 1, cfg.subscriptions);
      assert r.ids == cfg.subscriptions + IdsBetween(args, i + 1, r.next);
    }
  }

  lemma IterationEvolves(args: seq<string>, i: nat, cfg: Config)
    requires i < |args|
    ensures Iteration(args, i, cfg).Next? ==> Evolves(cfg, Iteration(args, i, cfg).cfg)
  {
    PubPartEvolves(args, i, cfg);
    var p := PubPart(args, i, cfg);
    if p.Next? {
      SubPartEvolves(args, p.next, p.cfg);
    }
  }

  /** Host, port, appended ids and `int` values hold across the whole loop. */
  lemma {:induction false} ScanFromEvolves(args: seq<string>, i: nat, cfg: Config)
    requires i <= |args|
    decreases |args| - i
    ensures ScanFrom(args, i, cfg).Parsed? ==> Evolves(cfg, ScanFrom(args, i, cfg).config)
  {
    if i < |args| {
      IterationEvolves(args, i, cfg);
      var step := Iteration(args, i, cfg);
      if step.Next? && step.next > i {
        ScanFromEvolves(args, step.next, step.cfg);
      }
    }
  }

  /**
   * A parsed scan has `args[0]` as host and the value parseInt read from
   * `args[1]` as port, and its port, subscription ids and published types
   * are all `int` values.
   */
  lemma ScanInt32(args: seq<string>)
    ensures Scan(args).Parsed? ==> Int32Config(Scan(args).config) && Scan(args).config.host == args[0]
    ensures Scan(args).Parsed? ==> |args| >= 2 && ParseInt(args[1]).Some? && Scan(args).config.port == ParseInt(args[1]).value
  {
    if |args| >= 2 && ParseInt(args[1]).Some? {
      ScanFromEvolves(args, 2, InitialConfig(args[0], ParseInt(args[1]).value));
    }
  }

  /**
   * "-pub <type>" replaces whatever an earlier "-pub" of that type recorded:
   * afterwards the type maps to exactly the key tokens this "-pub" consumed,
   * and every other type keeps its map.
   */
  lemma PubReplaces(args: seq<string>, i: nat, cfg: Config)
    requires i + 1 < |args| && args[i] == "-pub" && ParseInt(args[i + 1]).Some?
    requires PubPart(args, i, cfg).Next?
    ensures var t := ParseInt(args[i + 1]).value;
      var after := PubPart(args, i, cfg);
      && t in after.cfg.notifications
      && after.cfg.notifications[t].Keys == (set p | i + 2 <= p < after.next && (p - i) % 2 == 0 :: args[p])
      && (forall u :: u != t ==> (u in after.cfg.notifications <==> u in cfg.notifications))
      && (forall u :: u != t && u in cfg.notifications ==> after.cfg.notifications[u] == cfg.notifications[u])
  {
    PubPairsKeys(args, i + 2, map[]);
    var after := PubPart(args, i, cfg);
    assert (set p | i + 2 <= p < after.next && (p - i) % 2 == 0 :: args[p])
        == (set p | i + 2 <= p < after.next && (p - (i + 2)) % 2 == 0 :: args[p]);
  }

  /**
   * The loop never ends when an iteration starts at a token other than
   * "-pub", "-sub" or "-rule"; a scan only diverges at such a token.
   */
  lemma UnknownTokenDiverges(args: seq<string>, i: nat, cfg: Config)
    requires i < |args| && !IsScanFlag(args[i])
    ensures ScanFrom(args, i, cfg) == Diverges(i)
  {
  }

  lemma ParsesPort()
    ensures ParseInt("50254") == Some(50254)
  {
    ParseIntShape("50254");
    assert "50254"[..4] == "5025" && "5025"[..3] == "502" && "502"[..2] == "50" && "50"[..1] == "5";
  }

  lemma ParsesPubType()
    ensures ParseInt("2001") == Some(2001)
  {
    ParseIntShape("2001");
    assert "2001"[..3] == "200" && "200"[..2] == "20" && "20"[..1] == "2";
  }

  lemma ParsesSubId()
    ensures ParseInt("2100") == Some(2100)
  {
    ParseIntShape("2100");
    assert "2100"[..3] == "210" && "210"[..2] == "21" && "21"[..1] == "2";
  }

  /** The documented publication command. */
  lemma PublishCommand()
    ensures Scan(["localhost", "50254", "-pub", "2001", "area", "toto", "value", "50"])
         == Parsed(Config("localhost", 50254, [], map[2001 := map["area" := "toto", "value" := "50"]], false, ""))
  {
    var args := ["localhost", "50254", "-pub", "2001", "area", "toto", "value", "50"];
    ParsesPort();
    ParsesPubType();
    assert PubPairs(args, 4, map[]) == PairsDone(8, map["area" := "toto", "value" := "50"]);
  }

  /** The documented subscription command. */
  lemma SubscribeCommand()
    ensures Scan(["localhost", "50254", "-sub", "2100"])
         == Parsed(Config("localhost", 50254, [2100], map[], false, ""))
  {
    ParsesPort();
    ParsesSubId();
  }

  /** The documented rule command. */
  lemma RuleCommand()
    ensures Scan(["localhost", "50254", "-rule", "trex.rules"])
         == Parsed(Config("localhost", 50254, [], map[], true, "trex.rules"))
  {
    ParsesPort();
  }

  /** The error paths on small concrete commands. */
  lemma ErrorCommands()
    ensures Scan(["h", "1", "-pub"]) == OutOfBounds(3)
    ensures Scan(["h", "1", "-pub", "5", "k"]) == OutOfBounds(5)
    ensures Scan(["h", "1", "-sub", "x"]) == UsageExit
    ensures Scan(["h", "1", "foo"]) == Diverges(2)
    ensures Scan(["h", "1", "-sub", "-5"]) == Diverges(3)
    ensures Scan(["h", "1", "-pub", "5", "-sub", "x"]) == UsageExit
  {
    ParseIntShape("1");
    ParseIntShape("5");
    assert DigitsValue("1") == 1 && DigitsValue("5") == 5;
  }
}
