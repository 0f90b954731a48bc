/**
 * Sequences of builder calls, and what the registry holds after them, stated
 * by reference definitions that read the call sequence directly.
 */
module BuilderHistory {
  import opened Wrappers
  import opened RenderGraph2

  /** One chained builder call. */
  datatype Call<Pipe, Pass, Tex, Prov> =
    | PassCall(name: string, pass: Pass)
    | PipelineCall(name: string, pipeline: Pipe)
    | ProviderCall(provider: Prov)
    | TextureCall(name: string, texture: Tex)

  function Apply<Pipe, Pass, Tex, Prov>(s: BuilderState<Pipe, Pass, Tex, Prov>, c: Call<Pipe, Pass, Tex, Prov>)
    : (r: BuilderState<Pipe, Pass, Tex, Prov>)
  {
    match c
    case PassCall(n, d) => s.AddPass(n, d)
    case PipelineCall(n, p) => s.AddPipeline(n, p)
    case ProviderCall(r) => s.AddResourceProvider(r)
    case TextureCall(n, t) => s.AddTexture(n, t)
  }

  /** The builder after the chain `calls`, issued left to right, starting from `s`. */
  function Run<Pipe, Pass, Tex, Prov>(s: BuilderState<Pipe, Pass, Tex, Prov>, calls: seq<Call<Pipe, Pass, Tex, Prov>>)
    : (r: BuilderState<Pipe, Pass, Tex, Prov>)
    decreases |calls|
  {
    if |calls| == 0 then s else Apply(Run(s, calls[..|calls| - 1]), calls[|calls| - 1])
  }

  // Reference definitions: each reads the call sequence, not the builder.

  /** The name of the last pass declared in `calls`. */
  function LastPass<Pipe, Pass, Tex, Prov>(calls: seq<Call<Pipe, Pass, Tex, Prov>>): (r: Option<string>)
    decreases |calls|
  {
    if |calls| == 0 then None
    else if calls[|calls| - 1].PassCall? then Some(calls[|calls| - 1].name)
    else LastPass(calls[..|calls| - 1])
  }

  /** The descriptor of the last declaration of pipeline `n` in `calls`. */
  function LastPipelineWrite<Pipe, Pass, Tex, Prov>(calls: seq<Call<Pipe, Pass, Tex, Prov>>, n: string): (r: Option<Pipe>)
    decreases |calls|
  {
    if |calls| == 0 then None
    else if calls[|calls| - 1].PipelineCall? && calls[|calls| - 1].name == n then Some(calls[|calls| - 1].pipeline)
    else LastPipelineWrite(calls[..|calls| - 1], n)
  }

  /** The descriptor of the last declaration of pass `n` in `calls`. */
  function LastPassWrite<Pipe, Pass, Tex, Prov>(calls: seq<Call<Pipe, Pass, Tex, Prov>>, n: string): (r: Option<Pass>)
    decreases |calls|
  {
    if |calls| == 0 then None
    else if calls[|calls| - 1].PassCall? && calls[|calls| - 1].name == n then Some(calls[|calls| - 1].pass)
    else LastPassWrite(calls[..|calls| - 1], n)
  }

  /**
   * The names of the pipeline declarations in `calls` issued while `p` was the
   * most recently declared pass, in call order, repetitions included.
   */
  function AttachedTo<Pipe, Pass, Tex, Prov>(calls: seq<Call<Pipe, Pass, Tex, Prov>>, p: string): (r: seq<string>)
    decreases |calls|
  {
    if |calls| == 0 then []
    else
      var before := calls[..|calls| - 1];
      var c := calls[|calls| - 1];
      if c.PipelineCall? && LastPass(before) == Some(p) then AttachedTo(before, p) + [c.name]
      else AttachedTo(before, p)
  }

  /** The providers of the provider calls in `calls`, in call order. */
  function Providers<Pipe, Pass, Tex, Prov>(calls: seq<Call<Pipe, Pass, Tex, Prov>>): (r: seq<Prov>)
    decreases |calls|
  {
    if |calls| == 0 then []
    else
      var c := calls[|calls| - 1];
      Providers(calls[..|calls| - 1]) + if c.ProviderCall? then [c.provider] else []
  }

  /** The number of provider calls in `calls`. */
  function ProviderCallCount<Pipe, Pass, Tex, Prov>(calls: seq<Call<Pipe, Pass, Tex, Prov>>): (r: nat) {
    |set i | 0 <= i < |calls| && calls[i].ProviderCall?|
  }

  /** The (name, descriptor) pairs of the texture calls in `calls`, in call order. */
  function Textures<Pipe, Pass, Tex, Prov>(calls: seq<Call<Pipe, Pass, Tex, Prov>>): (r: seq<(string, Tex)>)
    decreases |calls|
  {
    if |calls| == 0 then []
    else
      var c := calls[|calls| - 1];
      Textures(calls[..|calls| - 1]) + if c.TextureCall? then [(c.name, c.texture)] else []
  }

  // Lemmas.

  /** Chaining two call sequences is running their concatenation. */
  lemma {:induction false} RunAppend<Pipe, Pass, Tex, Prov>(
    s: BuilderState<Pipe, Pass, Tex, Prov>, a: seq<Call<Pipe, Pass, Tex, Prov>>, b: seq<Call<Pipe, Pass, Tex, Prov>>)
    ensures Run(s, a + b) == Run(Run(s, a), b)
    decreases |b|
  {
    if |b| == 0 {
      assert a + b == a;
    } else {
      var b' := b[..|b| - 1];
      assert (a + b)[..|a + b| - 1] == a + b';
      assert (a + b)[|a + b| - 1] == b[|b| - 1];
      RunAppend(s, a, b');
    }
  }

  /** Every chain of calls keeps the builder's invariant. */
  lemma {:induction false} RunPreservesValid<Pipe, Pass, Tex, Prov>(
    s: BuilderState<Pipe, Pass, Tex, Prov>, calls: seq<Call<Pipe, Pass, Tex, Prov>>)
    requires s.Valid()
    ensures Run(s, calls).Valid()
    decreases |calls|
  {
    if |calls| > 0 {
      RunPreservesValid(s, calls[..|calls| - 1]);
    }
  }

  /** The current pass is the pass declared last, None before any pass. */
  lemma {:induction false} CurrentPassIsLastDeclared<Pipe, Pass, Tex, Prov>(calls: seq<Call<Pipe, Pass, Tex, Prov>>)
    ensures Run(Initial(), calls).currentPass == LastPass(calls)
    decreases |calls|
  {
    if |calls| > 0 {
      CurrentPassIsLastDeclared(calls[..|calls| - 1]);
    }
  }

  /** Each pipeline name holds the descriptor of its last declaration; undeclared names are absent. */
  lemma {:induction false} PipelineDescriptorsAreLastWrites<Pipe, Pass, Tex, Prov>(
    calls: seq<Call<Pipe, Pass, Tex, Prov>>, n: string)
    ensures Lookup(Run(Initial(), calls).graph.pipelineDescriptors, n) == LastPipelineWrite(calls, n)
    decreases |calls|
  {
    if |calls| > 0 {
      PipelineDescriptorsAreLastWrites(calls[..|calls| - 1], n);
    }
  }

  /** Each pass name holds the descriptor of its last declaration; undeclared names are absent. */
  lemma {:induction false} PassDescriptorsAreLastWrites<Pipe, Pass, Tex, Prov>(
    calls: seq<Call<Pipe, Pass, Tex, Prov>>, n: string)
    ensures Lookup(Run(Initial(), calls).graph.passDescriptors, n) == LastPassWrite(calls, n)
    decreases |calls|
  {
    if |calls| > 0 {
      PassDescriptorsAreLastWrites(calls[..|calls| - 1], n);
    }
  }

  /**
   * A pass has a pipeline list exactly when some pipeline was declared while it
   * was current, and the list is the names of those declarations in call order.
   */
  lemma {:induction false} PassPipelinesAreAttached<Pipe, Pass, Tex, Prov>(
    calls: seq<Call<Pipe, Pass, Tex, Prov>>, p: string)
    ensures var lists := Run(Initial(), calls).graph.passPipelines;
            && (p in lists <==> AttachedTo(calls, p) != [])
            && (p in lists ==> lists[p] == AttachedTo(calls, p))
    decreases |calls|
  {
    if |calls| > 0 {
      var before := calls[..|calls| - 1];
      PassPipelinesAreAttached(before, p);
      CurrentPassIsLastDeclared(before);
    }
  }

  /** The providers are those of the provider calls, in call order. */
  lemma {:induction false} ProvidersInCallOrder<Pipe, Pass, Tex, Prov>(calls: seq<Call<Pipe, Pass, Tex, Prov>>)
    ensures Run(Initial(), calls).graph.resourceProviders == Providers(calls)
    decreases |calls|
  {
    if |calls| > 0 {
      ProvidersInCallOrder(calls[..|calls| - 1]);
    }
  }

  /** One provider is stored per provider call. */
  lemma ProviderCountIsCallCount<Pipe, Pass, Tex, Prov>(calls: seq<Call<Pipe, Pass, Tex, Prov>>)
    ensures |Run(Initial(), calls).graph.resourceProviders| == ProviderCallCount(calls)
  {
    ProvidersInCallOrder(calls);
    ProviderFilterLength(calls);
  }

  /** Helper for ProviderCountIsCallCount: the provider filter has one element per provider call. */
  lemma {:induction false} ProviderFilterLength<Pipe, Pass, Tex, Prov>(calls: seq<Call<Pipe, Pass, Tex, Prov>>)
    ensures |Providers(calls)| == ProviderCallCount(calls)
    decreases |calls|
  {
    if |calls| > 0 {
      var before := calls[..|calls| - 1];
      var last := |calls| - 1;
      ProviderFilterLength(before);
      var all := set i | 0 <= i < |calls| && calls[i].ProviderCall?;
      var prior := set i | 0 <= i < |before| && before[i].ProviderCall?;
      assert last !in prior;
      if calls[last].ProviderCall? {
        assert all == prior + {last};
        assert |all| == |prior| + 1;
      } else {
        assert all == prior;
      }
    }
  }

  /** The queued textures are the texture calls' pairs, in call order, duplicates kept. */
  lemma {:induction false} TexturesInCallOrder<Pipe, Pass, Tex, Prov>(calls: seq<Call<Pipe, Pass, Tex, Prov>>)
    ensures Run(Initial(), calls).graph.queuedTextures == Textures(calls)
    decreases |calls|
  {
    if |calls| > 0 {
      TexturesInCallOrder(calls[..|calls| - 1]);
    }
  }

  /**
   * Later calls never remove a pass's list or anything already in it: a
   * redeclared pipeline or pass keeps its earlier links.
   */
  lemma {:induction false} LinksOnlyGrow<Pipe, Pass, Tex, Prov>(
    s: BuilderState<Pipe, Pass, Tex, Prov>, calls: seq<Call<Pipe, Pass, Tex, Prov>>, p: string)
    requires p in s.graph.passPipelines
    ensures p in Run(s, calls).graph.passPipelines
    ensures s.graph.passPipelines[p] <= Run(s, calls).graph.passPipelines[p]
    decreases |calls|
  {
    if |calls| > 0 {
      LinksOnlyGrow(s, calls[..|calls| - 1], p);
    }
  }

  /** Pipelines declared while no pass has been declared are attached to no pass. */
  lemma {:induction false} NoPassNoLinks<Pipe, Pass, Tex, Prov>(calls: seq<Call<Pipe, Pass, Tex, Prov>>)
    requires forall i :: 0 <= i < |calls| ==> !calls[i].PassCall?
    ensures Run(Initial(), calls).graph.passPipelines == map[]
    decreases |calls|
  {
    if |calls| > 0 {
      NoPassNoLinks(calls[..|calls| - 1]);
      CurrentPassIsLastDeclared(calls[..|calls| - 1]);
      NoPassMeansNoLastPass(calls[..|calls| - 1]);
    }
  }

  /** Helper for NoPassNoLinks: with no pass call there is no last declared pass. */
  lemma {:induction false} NoPassMeansNoLastPass<Pipe, Pass, Tex, Prov>(calls: seq<Call<Pipe, Pass, Tex, Prov>>)
    requires forall i :: 0 <= i < |calls| ==> !calls[i].PassCall?
    ensures LastPass(calls) == None
    decreases |calls|
  {
    if |calls| > 0 {
      NoPassMeansNoLastPass(calls[..|calls| - 1]);
    }
  }
}
