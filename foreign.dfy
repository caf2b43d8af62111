/** The library code the layout pipeline calls but does not define: the
    networkx, cartoGRAPHs and trimesh routines. Each is a parameter of the
    model; the only thing assumed of them is how many points they return. */
module Foreign {
  import opened Common
  import opened Graphs
  import opened PosDicts

  /** The link-based embeddings: networkx spring and kamada-kawai and the
      local, global and importance variants of cartoGRAPHs tsne and umap. */
  datatype LinkAlgo =
    | Spring
    | KamadaKawai
    | LocalTsne
    | GlobalTsne
    | ImportanceTsne
    | LocalUmap
    | GlobalUmap
    | ImportanceUmap

  /** The feature-based embeddings of cartoGRAPHs. */
  datatype FunctionalAlgo = FunctionalTsne | FunctionalUmap

  /** A row of a feature matrix: the node id of its index and its features. */
  type FeatureRow = (NodeId, seq<real>)
  type FeatureMatrix = seq<FeatureRow>

  /** `trimesh.creation.icosphere(radius, subdivisions)` moved to `center`. */
  datatype Sphere = Sphere(center: Point, radius: real, subdivisions: nat)

  /** The foreign routines. An embedding returns one point per node of the
      graph it is given, in the graph's node order (networkx returns a dict
      keyed by the nodes in that order; the model keeps the values). */
  datatype Engines = Engines(
    embed: (LinkAlgo, Graph, map<string, Param>) -> seq<Point>,
    embedFeatures: (FunctionalAlgo, Graph, FeatureMatrix, map<string, Param>) -> seq<Point>,
    random: Graph -> seq<Point>,
    sampleSurface: (Sphere, nat) -> seq<Point>)

  /** Well-behaved libraries: one 3-vector per node, and as many sphere
      samples as were asked for. */
  ghost predicate Conforms(e: Engines)
  {
    && (forall a, g, p :: |e.embed(a, g, p)| == |g.nodes| && forall x :: x in e.embed(a, g, p) ==> |x| == 3)
    && (forall a, g, f, p :: |e.embedFeatures(a, g, f, p)| == |g.nodes| && forall x :: x in e.embedFeatures(a, g, f, p) ==> |x| == 3)
    && (forall g :: |e.random(g)| == |g.nodes| && forall x :: x in e.random(g) ==> |x| == 3)
    && (forall s, n :: |e.sampleSurface(s, n)| == n && forall x :: x in e.sampleSurface(s, n) ==> |x| == 3)
  }
}
