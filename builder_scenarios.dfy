/** Two chains of builder calls, made on the builder object, and the registries they build. */
module BuilderScenarios {
  import opened Wrappers
  import opened RenderGraph2

  /** Building straight after construction gives the registry with all containers empty. */
  method BuildFresh<Pipe, Pass, Tex, Prov>() returns (g: RenderGraph<Pipe, Pass, Tex, Prov>)
    ensures g.pipelineDescriptors == map[] && g.passDescriptors == map[] && g.passPipelines == map[]
    ensures g.resourceProviders == [] && g.queuedTextures == []
  {
    var b := new RenderGraphBuilder<Pipe, Pass, Tex, Prov>();
    g := b.Build();
  }

  /**
   * Two passes, three pipeline declarations: "p1" is attached to both passes,
   * yet the registry holds only two pipeline descriptors.
   */
  method BuildShadowAndMain<Pipe, Pass, Tex, Prov>(d1: Pass, d2: Pass, p1: Pipe, p2: Pipe)
    returns (g: RenderGraph<Pipe, Pass, Tex, Prov>)
    ensures g.passPipelines == map["shadow" := ["p1"], "main" := ["p2", "p1"]]
    ensures g.pipelineDescriptors == map["p1" := p1, "p2" := p2]
    ensures g.passDescriptors == map["shadow" := d1, "main" := d2]
    ensures g.resourceProviders == [] && g.queuedTextures == []
  {
    var b := new RenderGraphBuilder<Pipe, Pass, Tex, Prov>();
    b.AddPass("shadow", d1);
    assert [] + ["p1"] == ["p1"];
    b.AddPipeline("p1", p1);
    assert b.renderGraph.passPipelines == map["shadow" := ["p1"]];
    b.AddPass("main", d2);
    assert [] + ["p2"] == ["p2"];
    b.AddPipeline("p2", p2);
    assert b.renderGraph.passPipelines == map["shadow" := ["p1"], "main" := ["p2"]];
    assert ["p2"] + ["p1"] == ["p2", "p1"];
    b.AddPipeline("p1", p1);
    g := b.Build();
  }
}
