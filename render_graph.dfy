/**
 * The registry of a render graph and the builder that fills it.
 *
 * The descriptor types of pipelines, passes and textures and the resource
 * provider type are never inspected by the builder, so they are type
 * parameters throughout: Pipe, Pass, Tex and Prov.
 */
module RenderGraph2 {
  import opened Wrappers

  /** The value stored under key `k` of `m`, or None when `k` is absent. */
  function Lookup<V>(m: map<string, V>, k: string): Option<V>
  {
    if k in m then Some(m[k]) else None
  }

  /**
   * The registry: named pipelines, named passes, the ordered pipeline names of
   * each pass, the resource providers and the queued texture declarations.
   */
  datatype RenderGraph<Pipe, Pass, Tex, Prov> = RenderGraph(
    pipelineDescriptors: map<string, Pipe>,
    passDescriptors: map<string, Pass>,
    passPipelines: map<string, seq<string>>,
    resourceProviders: seq<Prov>,
    queuedTextures: seq<(string, Tex)>)
  {
    /** The pipeline names recorded for `pass`; empty when the pass has no entry. */
    function PipelinesOf(pass: string): (r: seq<string>) {
      if pass in passPipelines then passPipelines[pass] else []
    }

    /**
     * The links between the containers that the builder maintains: every pass
     * with a pipeline list is a declared pass, no list is empty, and every name
     * in a list is a declared pipeline.
     */
    ghost predicate Linked() {
      && (forall p :: p in passPipelines ==> p in passDescriptors)
      && (forall p :: p in passPipelines ==> passPipelines[p] != [])
      && (forall p, i :: p in passPipelines && 0 <= i < |passPipelines[p]| ==>
            passPipelines[p][i] in pipelineDescriptors)
    }
  }

  /** The registry with all five containers empty. */
  function Default<Pipe, Pass, Tex, Prov>(): (g: RenderGraph<Pipe, Pass, Tex, Prov>)
    ensures |g.pipelineDescriptors| == 0 && |g.passDescriptors| == 0 && |g.passPipelines| == 0
    ensures |g.resourceProviders| == 0 && |g.queuedTextures| == 0
    ensures g.Linked()
  {
    RenderGraph(map[], map[], map[], [], [])
  }

  /**
   * The builder as a value: the registry under construction and the pass that
   * was declared last, to which new pipelines are attached.
   */
  datatype BuilderState<Pipe, Pass, Tex, Prov> = BuilderState(
    graph: RenderGraph<Pipe, Pass, Tex, Prov>,
    currentPass: Option<string>)
  {
    /** The builder's invariant: the registry is linked and the current pass is declared. */
    ghost predicate Valid() {
      && graph.Linked()
      && (currentPass.Some? ==> currentPass.value in graph.passDescriptors)
    }

    /** Declares (or redeclares) a pass and makes it the current pass. */
    function AddPass(name: string, pass: Pass): (r: BuilderState<Pipe, Pass, Tex, Prov>)
      ensures r.currentPass == Some(name)
      ensures Lookup(r.graph.passDescriptors, name) == Some(pass)
      ensures forall k :: k != name ==> Lookup(r.graph.passDescriptors, k) == Lookup(graph.passDescriptors, k)
      ensures r.graph.pipelineDescriptors == graph.pipelineDescriptors
      ensures r.graph.passPipelines == graph.passPipelines
      ensures r.graph.resourceProviders == graph.resourceProviders
      ensures r.graph.queuedTextures == graph.queuedTextures
      ensures Valid() ==> r.Valid()
    {
      BuilderState(graph.(passDescriptors := graph.passDescriptors[name := pass]), Some(name))
    }

    /**
     * Declares (or redeclares) a pipeline and, when a pass is current, appends
     * its name to that pass's list, creating the list if the pass has none.
     */
    function AddPipeline(name: string, pipeline: Pipe): (r: BuilderState<Pipe, Pass, Tex, Prov>)
      ensures Lookup(r.graph.pipelineDescriptors, name) == Some(pipeline)
      ensures forall k :: k != name ==>
                Lookup(r.graph.pipelineDescriptors, k) == Lookup(graph.pipelineDescriptors, k)
      ensures currentPass.None? ==> r.graph.passPipelines == graph.passPipelines
      ensures currentPass.Some? ==>
                && Lookup(r.graph.passPipelines, currentPass.value)
                   == Some(graph.PipelinesOf(currentPass.value) + [name])
                && forall k :: k != currentPass.value ==>
                     Lookup(r.graph.passPipelines, k) == Lookup(graph.passPipelines, k)
      ensures r.currentPass == currentPass
      ensures r.graph.passDescriptors == graph.passDescriptors
      ensures r.graph.resourceProviders == graph.resourceProviders
      ensures r.graph.queuedTextures == graph.queuedTextures
      ensures Valid() ==> r.Valid()
    {
      var g := graph.(pipelineDescriptors := graph.pipelineDescriptors[name := pipeline]);
      match currentPass
      case None => BuilderState(g, currentPass)
      case Some(c) =>
        var lists := if c in g.passPipelines then g.passPipelines else g.passPipelines[c := []];
        BuilderState(g.(passPipelines := lists[c := lists[c] + [name]]), currentPass)
    }

    /** Appends a resource provider; nothing else changes. */
    function AddResourceProvider(provider: Prov): (r: BuilderState<Pipe, Pass, Tex, Prov>)
      ensures |r.graph.resourceProviders| == |graph.resourceProviders| + 1
      ensures r.graph.resourceProviders[..|graph.resourceProviders|] == graph.resourceProviders
      ensures r.graph.resourceProviders[|graph.resourceProviders|] == provider
      ensures r.graph.pipelineDescriptors == graph.pipelineDescriptors
      ensures r.graph.passDescriptors == graph.passDescriptors
      ensures r.graph.passPipelines == graph.passPipelines
      ensures r.graph.queuedTextures == graph.queuedTextures
      ensures r.currentPass == currentPass
      ensures Valid() ==> r.Valid()
    {
      BuilderState(graph.(resourceProviders := graph.resourceProviders + [provider]), currentPass)
    }

    /** Queues a texture declaration; duplicate names are kept. */
    function AddTexture(name: string, texture: Tex): (r: BuilderState<Pipe, Pass, Tex, Prov>)
      ensures |r.graph.queuedTextures| == |graph.queuedTextures| + 1
      ensures r.graph.queuedTextures[..|graph.queuedTextures|] == graph.queuedTextures
      ensures r.graph.queuedTextures[|graph.queuedTextures|] == (name, texture)
      ensures r.graph.pipelineDescriptors == graph.pipelineDescriptors
      ensures r.graph.passDescriptors == graph.passDescriptors
      ensures r.graph.passPipelines == graph.passPipelines
      ensures r.graph.resourceProviders == graph.resourceProviders
      ensures r.currentPass == currentPass
      ensures Valid() ==> r.Valid()
    {
      BuilderState(graph.(queuedTextures := graph.queuedTextures + [(name, texture)]), currentPass)
    }
  }

  /** A fresh builder: an empty registry and no current pass. */
  function Initial<Pipe, Pass, Tex, Prov>(): (s: BuilderState<Pipe, Pass, Tex, Prov>)
    ensures |s.graph.pipelineDescriptors| == 0 && |s.graph.passDescriptors| == 0
    ensures |s.graph.passPipelines| == 0
    ensures |s.graph.resourceProviders| == 0 && |s.graph.queuedTextures| == 0
    ensures s.currentPass == None
    ensures s.Valid()
  {
    BuilderState(Default(), None)
  }

  /**
   * The builder object. Each method updates the embedded registry in place, as
   * the source does, and is proved to perform the transition of the same name
   * on BuilderState.
   */
  class RenderGraphBuilder<Pipe, Pass, Tex, Prov> {
    var renderGraph: RenderGraph<Pipe, Pass, Tex, Prov>
    var currentPass: Option<string>

    /** The builder's fields as a value. */
    function State(): (s: BuilderState<Pipe, Pass, Tex, Prov>)
      reads this
    {
      BuilderState(renderGraph, currentPass)
    }

    ghost predicate Valid()
      reads this
    {
      State().Valid()
    }

    constructor ()
      ensures State() == Initial()
      ensures Valid()
    {
      renderGraph := Default();
      currentPass := None;
    }

    method AddPass(name: string, pass: Pass)
      modifies this
      ensures State() == old(State()).AddPass(name, pass)
      ensures old(Valid()) ==> Valid()
    {
      currentPass := Some(name);
      renderGraph := renderGraph.(passDescriptors := renderGraph.passDescriptors[name := pass]);
    }

    method AddPipeline(name: string, pipeline: Pipe)
      modifies this
      ensures State() == old(State()).AddPipeline(name, pipeline)
      ensures old(Valid()) ==> Valid()
    {
      renderGraph := renderGraph.(pipelineDescriptors := renderGraph.pipelineDescriptors[name := pipeline]);
      if currentPass.Some? {
        var current := currentPass.value;
        if current !in renderGraph.passPipelines {
          renderGraph := renderGraph.(passPipelines := renderGraph.passPipelines[current := []]);
        }
        var list := renderGraph.passPipelines[current];
        renderGraph := renderGraph.(passPipelines := renderGraph.passPipelines[current := list + [name]]);
      }
    }

    method AddResourceProvider(provider: Prov)
      modifies this
      ensures State() == old(State()).AddResourceProvider(provider)
      ensures old(Valid()) ==> Valid()
    {
      renderGraph := renderGraph.(resourceProviders := renderGraph.resourceProviders + [provider]);
    }

    method AddTexture(name: string, texture: Tex)
      modifies this
      ensures State() == old(State()).AddTexture(name, texture)
      ensures old(Valid()) ==> Valid()
    {
      renderGraph := renderGraph.(queuedTextures := renderGraph.queuedTextures + [(name, texture)]);
    }

    /** Hands out the registry exactly as accumulated. */
    method Build() returns (g: RenderGraph<Pipe, Pass, Tex, Prov>)
      ensures g == State().graph
      ensures Valid() ==> g.Linked()
    {
      g := renderGraph;
    }
  }
}
