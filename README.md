# Render graph builder — a Dafny model

This project models the render-graph builder of `src/render/render_graph_2/render_graph.rs`.

- **`RenderGraph`** is a registry with five containers:
  - pipeline name ↦ pipeline descriptor;
  - pass name ↦ pass descriptor;
  - pass name ↦ ordered list of pipeline names;
  - a list of resource providers;
  - a list of queued `(name, texture descriptor)` pairs.
- **`RenderGraphBuilder`** fills one registry through chained calls. It also remembers the pass declared last (`current_pass`). `add_pipeline` appends the pipeline's name to that pass's list.

Every operation is total. Redeclaring a name overwrites its descriptor. Declaring the same pipeline twice under one pass appends its name twice.

## Layout

- `wrappers.dfy`, module `Wrappers`: the `Option` type.
- `render_graph.dfy`, module `RenderGraph2`:
  - `RenderGraph` is a value datatype, because the source builds and returns it by value.
  - `Default` is the empty registry.
  - `BuilderState` is the builder as a value (registry plus current pass). Its member functions `AddPass`, `AddPipeline`, `AddResourceProvider` and `AddTexture` are the four transitions. Each one's contract states what changes, what stays the same, and that the invariant `Valid` is kept.
  - `RenderGraphBuilder` is a class with the source's two fields. Its methods update those fields in place, step by step as the source does. `AddPipeline`, for example, inserts the descriptor, creates an empty list for the current pass if the pass has none, then appends to it. Each method is proved to perform the `BuilderState` transition of the same name.
- `builder_history.dfy`, module `BuilderHistory`:
  - a chain of builder calls is a `seq<Call>`, and `Run` applies it;
  - reference definitions read the call sequence directly: the last declared pass, the last descriptor written for a name, the pipelines declared while a pass was current, and the providers and textures in call order;
  - lemmas, proved by induction, show that the registry built from a fresh builder matches those definitions.
- `builder_scenarios.dfy`, module `BuilderScenarios`: two client methods that drive the builder object and prove the exact registry they get back.

The descriptor types and the provider type are type parameters (`Pipe`, `Pass`, `Tex`, `Prov`). The builder never inspects them.

Invariant `BuilderState.Valid`: the current pass, if any, is a declared pass, and the registry is `Linked`. `Linked` means:
- every pass with a pipeline list is a declared pass;
- no list is empty;
- every name in a list is a declared pipeline.

The code maintains this because each pipeline descriptor is inserted before its name is pushed, and pipelines are pushed only onto the current pass. Nothing checks it, and nothing has to.

## Model

| member | source | states |
|---|---|---|
| `RenderGraph2.Default` | src/render/render_graph_2/render_graph.rs:15-24 | all five containers of the default registry are empty, and the empty registry is linked |
| `RenderGraph2.Initial` | src/render/render_graph_2/render_graph.rs:33-38 | a new builder has an empty registry, no current pass, and satisfies the builder invariant |
| `RenderGraph2.BuilderState.AddPass` | src/render/render_graph_2/render_graph.rs:40-46 | the current pass becomes the new name; that name now maps to the given descriptor (last write wins); every other pass name keeps its descriptor; the other four containers are unchanged; the invariant is kept |
| `RenderGraph2.BuilderState.AddPipeline` | src/render/render_graph_2/render_graph.rs:48-69 | the name now maps to the given pipeline descriptor and every other name keeps its own; with no current pass the pass lists are unchanged; with current pass `c`, the list of `c` becomes its old list (or the empty list) followed by the name, duplicates kept, and every other pass's entry is unchanged; the current pass and the other containers are unchanged; the invariant is kept |
| `RenderGraph2.BuilderState.AddResourceProvider` | src/render/render_graph_2/render_graph.rs:71-74 | the provider list grows by exactly one, keeps its old elements as a prefix, and ends with the new provider; nothing else changes; the invariant is kept |
| `RenderGraph2.BuilderState.AddTexture` | src/render/render_graph_2/render_graph.rs:76-81 | the texture queue grows by exactly one, keeps its old entries as a prefix, and ends with the new (name, descriptor) pair even if the name is already queued; the maps and the current pass are unchanged; the invariant is kept |
| `RenderGraph2.RenderGraphBuilder.constructor` | src/render/render_graph_2/render_graph.rs:33-38 | the object's state is the initial builder state, which satisfies the invariant |
| `RenderGraph2.RenderGraphBuilder.AddPass` | src/render/render_graph_2/render_graph.rs:40-46 | the in-place update of the two fields equals the `AddPass` transition of the old state and keeps the invariant |
| `RenderGraph2.RenderGraphBuilder.AddPipeline` | src/render/render_graph_2/render_graph.rs:48-69 | the insert, the conditional creation of an empty list and the push together equal the `AddPipeline` transition of the old state and keep the invariant |
| `RenderGraph2.RenderGraphBuilder.AddResourceProvider` | src/render/render_graph_2/render_graph.rs:71-74 | the push equals the `AddResourceProvider` transition of the old state and keeps the invariant |
| `RenderGraph2.RenderGraphBuilder.AddTexture` | src/render/render_graph_2/render_graph.rs:76-81 | the push equals the `AddTexture` transition of the old state and keeps the invariant |
| `RenderGraph2.RenderGraphBuilder.Build` | src/render/render_graph_2/render_graph.rs:83-85 | returns the accumulated registry unchanged; for a valid builder that registry is linked |
| `BuilderHistory.RunAppend` | src/render/render_graph_2/render_graph.rs:40-85 | chaining one call sequence after another gives the same builder as running their concatenation |
| `BuilderHistory.RunPreservesValid` | src/render/render_graph_2/render_graph.rs:40-81 | every chain of calls from a valid builder ends in a valid builder, so every built registry is linked |
| `BuilderHistory.CurrentPassIsLastDeclared` | src/render/render_graph_2/render_graph.rs:40-46 | after any chain from a new builder, the current pass is the pass declared last, or none if no pass was declared |
| `BuilderHistory.PipelineDescriptorsAreLastWrites` | src/render/render_graph_2/render_graph.rs:48-51 | after any chain, a pipeline name is present exactly when it was declared, and it holds the descriptor of its last declaration |
| `BuilderHistory.PassDescriptorsAreLastWrites` | src/render/render_graph_2/render_graph.rs:40-46 | after any chain, a pass name is present exactly when it was declared, and it holds the descriptor of its last declaration |
| `BuilderHistory.PassPipelinesAreAttached` | src/render/render_graph_2/render_graph.rs:53-66 | after any chain, a pass has a list exactly when some pipeline was declared while it was the last declared pass, and the list is the names of those declarations in call order, duplicates kept |
| `BuilderHistory.ProvidersInCallOrder` | src/render/render_graph_2/render_graph.rs:71-74 | after any chain, the stored providers are those of the provider calls, in call order |
| `BuilderHistory.ProviderCountIsCallCount` | src/render/render_graph_2/render_graph.rs:71-74 | after any chain from a new builder, the number of stored providers equals the number of provider calls |
| `BuilderHistory.TexturesInCallOrder` | src/render/render_graph_2/render_graph.rs:76-81 | after any chain, the queued textures are the texture calls' (name, descriptor) pairs in call order, duplicates kept |
| `BuilderHistory.LinksOnlyGrow` | src/render/render_graph_2/render_graph.rs:48-66 | later calls never remove a pass's list and never drop or reorder its names; redeclaring a pass or a pipeline keeps earlier links |
| `BuilderHistory.NoPassNoLinks` | src/render/render_graph_2/render_graph.rs:53-66 | a chain with no pass declaration leaves every pipeline unattached: the pass-list map stays empty |
| `BuilderScenarios.BuildFresh` | src/render/render_graph_2/render_graph.rs:15-38 | building straight after construction yields all five containers empty |
| `BuilderScenarios.BuildShadowAndMain` | src/render/render_graph_2/render_graph.rs:40-69 | the chain pass "shadow", pipeline "p1", pass "main", pipeline "p2", pipeline "p1" yields the lists {"shadow": ["p1"], "main": ["p2", "p1"]} and only two pipeline descriptors |

## Left out

- Descriptor contents: `PassDescriptor`, `PipelineDescriptor` and `TextureDescriptor` are defined outside this file and never inspected, so they are type parameters. The files that define them are not part of this model.
- `Box<dyn ResourceProvider>`: no method is ever called on a provider, so it is an opaque element type. Boxing and dynamic dispatch are not modelled.
- `HashMap` hashing and iteration order, and the "make this ordered" note on `pass_descriptors`: the maps are Dafny `map`s, which have no order.
- Move semantics of the `self -> Self` chain and `String` allocation via `to_string`: chaining is modelled as successive in-place method calls on one object, which behave the same because the builder is never aliased, and as `Run` over a call sequence.
- RenderGraph2.RenderGraphBuilder.Build: does not consume the builder; Dafny has no ownership transfer, so the object stays usable after `Build`, which the source forbids.
