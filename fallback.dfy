/**
 * The fallback graph that the getters of `fast_controller/resource.py`
 * implement, stated once as data: which slot each slot falls back to, the
 * chain of slots a getter consults, and resolution along that chain. The
 * lemmas tie the class getters to this graph and prove what the graph
 * promises: termination within two steps, no cycle, locality, and the
 * result of a getter after a setter.
 */
module SchemaFallback {
  import opened ResourceSchemas

  /**
   * The slot each getter falls back to when its own slot does not hold a
   * valid schema class. Search, input, update and output fall back to the
   * default; detailed output falls back to output; default has no fallback.
   */
  function Fallback(n: SlotName): (f: Option<SlotName>)
    ensures f.None? <==> n == Default
    ensures f == Some(Output) <==> n == DetailedOutput
    ensures f == Some(Default) <==> n in {Search, Input, Update, Output}
    ensures f.Some? ==> Depth(f.value) == Depth(n) - 1
  {
    match n
    case Default => None
    case DetailedOutput => Some(Output)
    case _ => Some(Default)
  }

  /** The number of fallback steps from slot `n` to the default slot. */
  function Depth(n: SlotName): (d: nat)
    ensures d <= 2
    ensures d == 0 <==> n == Default
    ensures d == 2 <==> n == DetailedOutput
  {
    match n
    case Default => 0
    case DetailedOutput => 2
    case _ => 1
  }

  /**
   * The slots a getter for `n` consults, in order: `n` itself, then its
   * fallback's chain. Every chain has at most three slots, ends at the
   * default slot and never visits a slot twice.
   */
  function Chain(n: SlotName): (c: seq<SlotName>)
    decreases Depth(n)
    ensures |c| == Depth(n) + 1 && |c| <= 3
    ensures c[0] == n && c[|c| - 1] == Default
    ensures forall i, j :: 0 <= i < j < |c| ==> Depth(c[j]) < Depth(c[i])
    ensures forall i :: 0 <= i < |c| - 1 ==> Fallback(c[i]) == Some(c[i + 1])
  {
    match Fallback(n)
    case None => [n]
    case Some(f) => [n] + Chain(f)
  }

  /** Chains never cycle: every slot appears at most once. */
  lemma ChainHasNoRepeats(n: SlotName)
    ensures forall i, j :: 0 <= i < j < |Chain(n)| ==> Chain(n)[i] != Chain(n)[j]
  {
    // follows from the strictly decreasing depth along a chain (`Chain`'s contract)
  }

  /**
   * Resolution of slot `n` along the fallback graph: the slot's candidate
   * if it is a valid schema class, else the resolution of its fallback; the
   * default slot is taken as stored. The result is always a valid schema
   * class or the default slot's candidate.
   */
  function Resolve(s: Slots, n: SlotName): (r: Candidate)
    decreases Depth(n)
    ensures IsSqlModelClass(r) || r == s.Get(Default)
    ensures IsSqlModelClass(s.Get(Default)) ==> IsSqlModelClass(r)
    ensures IsSqlModelClass(s.Get(n)) ==> r == s.Get(n)
  {
    match Fallback(n)
    case None => s.Get(n)
    case Some(f) => Either(s.Get(n), Resolve(s, f))
  }

  /**
   * A reference reading of the same rule as a scan over a list of slots:
   * the first candidate that is a valid schema class, or the last slot's
   * candidate as stored when none is.
   */
  function FirstValid(s: Slots, names: seq<SlotName>): (r: Candidate)
    requires |names| > 0
    decreases |names|
  {
    if |names| == 1 || IsSqlModelClass(s.Get(names[0])) then s.Get(names[0])
    else FirstValid(s, names[1..])
  }

  /**
   * What `FirstValid` picks: the candidate at some position `k` such that
   * no earlier candidate is valid, and it is valid itself unless it is the
   * last one.
   */
  lemma {:induction false} FirstValidPicksFirstValid(s: Slots, names: seq<SlotName>)
    requires |names| > 0
    ensures exists k :: (0 <= k < |names| && FirstValid(s, names) == s.Get(names[k])
      && (forall j :: 0 <= j < k ==> !IsSqlModelClass(s.Get(names[j])))
      && (k < |names| - 1 ==> IsSqlModelClass(s.Get(names[k]))))
    decreases |names|
  {
    if |names| == 1 || IsSqlModelClass(s.Get(names[0])) {
      assert FirstValid(s, names) == s.Get(names[0]);
    } else {
      FirstValidPicksFirstValid(s, names[1..]);
      var k :| 0 <= k < |names[1..]| && FirstValid(s, names[1..]) == s.Get(names[1..][k])
        && (forall j :: 0 <= j < k ==> !IsSqlModelClass(s.Get(names[1..][j])))
        && (k < |names[1..]| - 1 ==> IsSqlModelClass(s.Get(names[1..][k])));
      assert FirstValid(s, names) == s.Get(names[k + 1]);
      forall j | 0 <= j < k + 1 ensures !IsSqlModelClass(s.Get(names[j])) {
        if j > 0 {
          assert names[j] == names[1..][j - 1];
        }
      }
    }
  }

  /** Resolving along the graph is the first valid candidate on the slot's chain. */
  lemma {:induction false} ResolveIsFirstValidOnChain(s: Slots, n: SlotName)
    ensures Resolve(s, n) == FirstValid(s, Chain(n))
    decreases Depth(n)
  {
    match Fallback(n)
    case None =>
    case Some(f) =>
      ResolveIsFirstValidOnChain(s, f);
      assert Chain(n)[1..] == Chain(f);
  }

  /**
   * A getter reads only the slots on its chain: two snapshots that agree
   * there resolve `n` to the same candidate.
   */
  lemma {:induction false} ResolveReadsOnlyItsChain(s: Slots, t: Slots, n: SlotName)
    requires forall m :: m in Chain(n) ==> s.Get(m) == t.Get(m)
    ensures Resolve(s, n) == Resolve(t, n)
    decreases Depth(n)
  {
    match Fallback(n)
    case None =>
      assert n in Chain(n);
    case Some(f) =>
      assert n in Chain(n);
      forall m | m in Chain(f) ensures s.Get(m) == t.Get(m) {
        assert m in Chain(n)[1..];
      }
      ResolveReadsOnlyItsChain(s, t, f);
  }

  /**
   * A getter consults exactly the chains listed: update does not reach
   * input, and of the non-default slots only detailed output reaches
   * another one (output).
   */
  lemma ChainsOfTheSource()
    ensures Chain(Default) == [Default]
    ensures Chain(Search) == [Search, Default]
    ensures Chain(Input) == [Input, Default]
    ensures Chain(Update) == [Update, Default]
    ensures Chain(Output) == [Output, Default]
    ensures Chain(DetailedOutput) == [DetailedOutput, Output, Default]
  {
    assert Chain(Output) == [Output] + Chain(Default);
    assert Chain(DetailedOutput) == [DetailedOutput] + Chain(Output);
  }

  /**
   * Storing `c` in slot `n`, then resolving `n`: a valid schema class comes
   * back as given; for the default slot anything comes back as given;
   * otherwise the result is the resolution of the fallback, which the store
   * did not touch.
   */
  lemma SetThenResolve(s: Slots, n: SlotName, c: Candidate)
    ensures IsSqlModelClass(c) || n == Default ==> Resolve(s.Set(n, c), n) == c
    ensures !IsSqlModelClass(c) && n != Default ==> Resolve(s.Set(n, c), n) == Resolve(s, Fallback(n).value)
  {
    // follows from the contracts of `Resolve`, `Either` and `Slots.Set`
  }

  /** Storing a candidate in a slot off `n`'s chain leaves `n`'s resolution unchanged. */
  lemma SetOffChainKeepsResolution(s: Slots, m: SlotName, c: Candidate, n: SlotName)
    requires m !in Chain(n)
    ensures Resolve(s.Set(m, c), n) == Resolve(s, n)
  {
    ResolveReadsOnlyItsChain(s.Set(m, c), s, n);
  }

  /**
   * The update getter does not fall back to the input slot: whatever is
   * stored in input, the update getter resolves as before.
   */
  lemma UpdateIgnoresInput(s: Slots, c: Candidate)
    ensures Resolve(s.Set(Input, c), Update) == Resolve(s, Update)
    ensures !IsSqlModelClass(s.Get(Update)) ==> Resolve(s.Set(Input, c), Update) == s.Get(Default)
  {
    ChainsOfTheSource();
    SetOffChainKeepsResolution(s, Input, c, Update);
  }

  /** One `set_*_schema` call. */
  datatype Assignment = Assign(slot: SlotName, schema: Candidate)

  /** The slots after a series of setter calls, applied in order. */
  function Replay(s: Slots, calls: seq<Assignment>): (t: Slots)
    decreases |calls|
  {
    if calls == [] then s
    else Replay(s.Set(calls[0].slot, calls[0].schema), calls[1..])
  }

  /**
   * Registration may call setters in any order: a getter's result changes
   * only when a setter on its own chain runs.
   */
  lemma {:induction false} ReplayOffChainKeepsResolution(s: Slots, calls: seq<Assignment>, n: SlotName)
    requires forall i :: 0 <= i < |calls| ==> calls[i].slot !in Chain(n)
    ensures Resolve(Replay(s, calls), n) == Resolve(s, n)
    decreases |calls|
  {
    if calls != [] {
      var s' := s.Set(calls[0].slot, calls[0].schema);
      SetOffChainKeepsResolution(s, calls[0].slot, calls[0].schema, n);
      forall i | 0 <= i < |calls[1..]| ensures calls[1..][i].slot !in Chain(n) {
        assert calls[1..][i] == calls[i + 1];
      }
      ReplayOffChainKeepsResolution(s', calls[1..], n);
    }
  }

  /** The schema of the last call in `calls` that writes slot `m`, or `d` when none does. */
  function LastWritten(calls: seq<Assignment>, m: SlotName, d: Candidate): Candidate
    decreases |calls|
  {
    if calls == [] then d
    else if calls[|calls| - 1].slot == m then calls[|calls| - 1].schema
    else LastWritten(calls[..|calls| - 1], m, d)
  }

  /** One more setter call after a series is one more store on the replayed slots. */
  lemma {:induction false} ReplayAppend(s: Slots, calls: seq<Assignment>, a: Assignment)
    ensures Replay(s, calls + [a]) == Replay(s, calls).Set(a.slot, a.schema)
    decreases |calls|
  {
    if calls != [] {
      assert (calls + [a])[1..] == calls[1..] + [a];
      ReplayAppend(s.Set(calls[0].slot, calls[0].schema), calls[1..], a);
    }
  }

  /**
   * After any series of setter calls, each slot holds what the last call
   * on that slot stored, unfiltered, or its earlier content if no call
   * wrote it.
   */
  lemma {:induction false} ReplayLastWriteWins(s: Slots, calls: seq<Assignment>, m: SlotName)
    ensures Replay(s, calls).Get(m) == LastWritten(calls, m, s.Get(m))
    decreases |calls|
  {
    if calls != [] {
      var init, a := calls[..|calls| - 1], calls[|calls| - 1];
      assert calls == init + [a];
      ReplayAppend(s, init, a);
      ReplayLastWriteWins(s, init, m);
    }
  }

  /**
   * After any series of setter calls, the default getter returns what the
   * last `set_default_schema` call stored, valid or not.
   */
  lemma ReplayDefaultGetter(s: Slots, calls: seq<Assignment>)
    ensures Resolve(Replay(s, calls), Default) == LastWritten(calls, Default, s.Get(Default))
  {
    ReplayLastWriteWins(s, calls, Default);
  }

  /**
   * After any series of setter calls, a getter returns the last schema
   * stored in its own slot when that is a valid schema class, and
   * otherwise resolves its fallback on the replayed slots.
   */
  lemma ReplayGetter(s: Slots, calls: seq<Assignment>, n: SlotName)
    ensures IsSqlModelClass(LastWritten(calls, n, s.Get(n))) ==>
      Resolve(Replay(s, calls), n) == LastWritten(calls, n, s.Get(n))
    ensures !IsSqlModelClass(LastWritten(calls, n, s.Get(n))) && n != Default ==>
      Resolve(Replay(s, calls), n) == Resolve(Replay(s, calls), Fallback(n).value)
  {
    ReplayLastWriteWins(s, calls, n);
  }

  /**
   * The six getters of a resource type are resolution along the fallback
   * graph of its current slots.
   */
  lemma GettersFollowFallbackGraph(r: Resource)
    requires r.HasDefault()
    ensures r.GetDefaultSchema() == Resolve(r.State(), Default)
    ensures r.GetSearchSchema() == Resolve(r.State(), Search)
    ensures r.GetInputSchema() == Resolve(r.State(), Input)
    ensures r.GetUpdateSchema() == Resolve(r.State(), Update)
    ensures r.GetOutputSchema() == Resolve(r.State(), Output)
    ensures r.GetDetailedOutputSchema() == Resolve(r.State(), DetailedOutput)
  {
  }
}
