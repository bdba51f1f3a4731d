/** Cluster labels, centroid documents, the document-level fit and the
    algorithm dispatch of relevanceai/vector_tools/cluster.py. The
    clustering algorithms themselves are supplied as inputs. */
module ClusterTools {
  import opened Values
  import opened Strings

  const ClusterPrefix: string := "cluster_"
  const CentroidVectorField: string := "centroid_vector_"

  /** A label as a clustering algorithm returns it: numeric or textual. */
  datatype Label = IntLabel(n: int) | TextLabel(s: string)

  /** `_label_cluster`: numbers are prefixed with `cluster_`, text is kept. */
  function LabelCluster(l: Label): (r: string)
    ensures l.IntLabel? ==> StartsWith(r, ClusterPrefix) && r[|ClusterPrefix|..] == IntToString(l.n)
    ensures l.TextLabel? ==> r == l.s
  {
    match l
    case IntLabel(n) => ClusterPrefix + IntToString(n)
    case TextLabel(s) => s
  }

  /** `_label_clusters`. */
  function LabelClusters(labels: seq<Label>): (r: seq<string>)
    ensures |r| == |labels|
    ensures forall i :: 0 <= i < |labels| ==> r[i] == LabelCluster(labels[i])
  {
    seq(|labels|, i requires 0 <= i < |labels| => LabelCluster(labels[i]))
  }

  /** Distinct numeric labels give distinct names. */
  lemma IntLabelsInjective(a: int, b: int)
    ensures LabelCluster(IntLabel(a)) == LabelCluster(IntLabel(b)) <==> a == b
  {
    if LabelCluster(IntLabel(a)) == LabelCluster(IntLabel(b)) {
      PrefixCancel(ClusterPrefix, IntToString(a), IntToString(b));
      IntToStringInjective(a, b);
    }
  }

  /** Naming numeric labels keeps the partition: two points share a name
      exactly when they shared a label. */
  lemma LabelClustersKeepPartition(labels: seq<Label>, i: int, j: int)
    requires 0 <= i < |labels| && 0 <= j < |labels|
    requires labels[i].IntLabel? && labels[j].IntLabel?
    ensures LabelClusters(labels)[i] == LabelClusters(labels)[j] <==> labels[i] == labels[j]
  {
    IntLabelsInjective(labels[i].n, labels[j].n);
  }

  /** A text label spelled like a numeric one names the same cluster. */
  lemma TextLabelMayCollide(n: int)
    ensures LabelCluster(TextLabel(ClusterPrefix + IntToString(n))) == LabelCluster(IntLabel(n))
  {
  }

  /** The id of the centroid document of centre `i`. */
  function CentroidId(i: nat): (id: string) {
    ClusterPrefix + IntToString(i)
  }

  /** The documents `get_centroid_docs` builds from the centres, in order. */
  function CentroidDocs(centers: seq<Json>): (docs: seq<Doc>)
    ensures |docs| == |centers|
    ensures forall i :: 0 <= i < |centers| ==>
      docs[i].Keys == {IdField, CentroidVectorField}
      && docs[i][IdField] == JStr(CentroidId(i)) && docs[i][CentroidVectorField] == centers[i]
  {
    seq(|centers|, i requires 0 <= i < |centers| =>
      map[IdField := JStr(CentroidId(i)), CentroidVectorField := centers[i]])
  }

  /** The centroid documents carry pairwise distinct ids. */
  lemma CentroidIdsDistinct(centers: seq<Json>, i: int, j: int)
    requires 0 <= i < |centers| && 0 <= j < |centers| && i != j
    ensures CentroidDocs(centers)[i][IdField] != CentroidDocs(centers)[j][IdField]
  {
    if CentroidId(i) == CentroidId(j) {
      PrefixCancel(ClusterPrefix, IntToString(i), IntToString(j));
      IntToStringInjective(i, j);
    }
  }

  /** A centroid-based clusterer; `centers` is set when the centroid
      documents are requested. */
  class CentroidCluster {
    var centers: seq<Json>

    constructor()
      ensures centers == []
    {
      centers := [];
    }

    /** `get_centroid_docs`: `computed` is what the fitted model reports
        as its centres (already converted to lists). */
    method GetCentroidDocs(computed: seq<Json>) returns (docs: seq<Doc>)
      modifies this
      ensures centers == computed
      ensures docs == CentroidDocs(centers)
    {
      centers := computed;
      docs := CentroidDocs(centers);
    }
  }

  /** The dotted path under which `fit_documents` stores the labels. */
  function LabelPath(clusterField: string, vectorField: string, alias: string): (path: string) {
    clusterField + "." + vectorField + "." + alias
  }

  /** The `{_id, cluster_field}` projection of a document; when the
      cluster field is `_id` itself the second entry overwrites the first. */
  function Project(d: Doc, clusterField: string): (p: Doc)
    ensures p.Keys == {IdField, clusterField}
    ensures p[clusterField] == Get(d, clusterField)
    ensures clusterField != IdField ==> p[IdField] == Get(d, IdField)
  {
    map[IdField := Get(d, IdField)][clusterField := Get(d, clusterField)]
  }

  function Projections(docs: seq<Doc>, clusterField: string): (r: seq<Doc>)
    ensures |r| == |docs|
    ensures forall i :: 0 <= i < |docs| ==> r[i] == Project(docs[i], clusterField)
  {
    seq(|docs|, i requires 0 <= i < |docs| => Project(docs[i], clusterField))
  }

  /** `set_field_across_documents(path, values, docs)`: the setter applied
      in place to each document paired with a value by `zip`. */
  method SetFieldAcross(path: string, values: seq<string>, docs: array<Doc>,
                        setField: (string, Doc, Json) -> Doc)
    modifies docs
    ensures forall i :: 0 <= i < Min(|values|, docs.Length) ==>
      docs[i] == setField(path, old(docs[i]), JStr(values[i]))
    ensures forall i :: Min(|values|, docs.Length) <= i < docs.Length ==> docs[i] == old(docs[i])
  {
    var n := Min(|values|, docs.Length);
    for i := 0 to n
      invariant forall j :: 0 <= j < i ==> docs[j] == setField(path, old(docs[j]), JStr(values[j]))
      invariant forall j :: i <= j < docs.Length ==> docs[j] == old(docs[j])
    {
      docs[i] := setField(path, docs[i], JStr(values[i]));
    }
  }

  /** `ClusterBase.fit_documents`. `labels` is what the algorithm returns for
      the documents' vectors, and `setField(path, d, v)` is the dotted-path
      setter of the document utilities. Labels are paired with documents as
      `zip` pairs them. The documents are updated in place. */
  method FitDocuments(vectorField: seq<string>, docs: array<Doc>, labels: seq<Label>,
                      alias: string, clusterField: string, returnOnlyClusters: bool,
                      setField: (string, Doc, Json) -> Doc)
    returns (r: Result<seq<Doc>>)
    modifies docs
    ensures |vectorField| != 1 <==> r.Err?
    ensures r.Err? ==> r.error == ValueError && unchanged(docs)
    ensures r.Ok? ==>
      var path := LabelPath(clusterField, vectorField[0], alias);
      var n := Min(|labels|, docs.Length);
      && (forall i :: 0 <= i < n ==>
            docs[i] == setField(path, old(docs[i]), JStr(LabelCluster(labels[i]))))
      && (forall i :: n <= i < docs.Length ==> docs[i] == old(docs[i]))
      && r.value == (if returnOnlyClusters then Projections(docs[..], clusterField) else docs[..])
  {
    if |vectorField| != 1 {
      return Err(ValueError);
    }
    SetFieldAcross(LabelPath(clusterField, vectorField[0], alias), LabelClusters(labels), docs, setField);
    if returnOnlyClusters {
      return Ok(Projections(docs[..], clusterField));
    }
    return Ok(docs[..]);
  }

  /** The settings of `MiniBatchKMeans`. */
  datatype MiniBatchKMeans = MiniBatchKMeans(
    k: Option<int>,
    init: string,
    verbose: bool,
    computeLabels: bool,
    maxNoImprovement: int)

  function OptionalInt(k: Option<int>): (v: Json) {
    if k.Some? then JInt(k.value) else JNull
  }

  /** `MiniBatchKMeans.to_metadata`: the settings, with the number of
      clusters reported as `k`. */
  function ToMetadata(m: MiniBatchKMeans): (r: map<string, Json>)
    ensures r.Keys == {"k", "init", "verbose", "compute_labels", "max_no_improvement", "number_of_clusters"}
    ensures r["number_of_clusters"] == r["k"] == OptionalInt(m.k)
    ensures r["init"] == JStr(m.init) && r["verbose"] == JBool(m.verbose)
    ensures r["compute_labels"] == JBool(m.computeLabels) && r["max_no_improvement"] == JInt(m.maxNoImprovement)
  {
    map[
      "k" := OptionalInt(m.k),
      "init" := JStr(m.init),
      "verbose" := JBool(m.verbose),
      "compute_labels" := JBool(m.computeLabels),
      "max_no_improvement" := JInt(m.maxNoImprovement),
      "number_of_clusters" := OptionalInt(m.k)]
  }

  /** The keyword arguments `KMeans.__init__` accepts, and its default `k`. */
  const KMeansKeywords: set<string> := {"k", "init", "n_init", "max_iter", "tol", "verbose", "random_state", "copy_x", "algorithm"}
  const KMeansDefaultK: int := 10

  /** The `cluster` argument: an algorithm name, a clusterer object, or
      anything else. */
  datatype ClusterArg = Named(name: string) | Clusterer | Unsupported

  /** The algorithm `Cluster.cluster` ends up fitting. */
  datatype Fit =
    | FitKMeans(nClusters: Json, args: map<string, Json>)
    | FitHdbscan(args: map<string, Json>)

  /** The arguments after the default for the name is filled in; `None`
      when the defaults have no entry for it (KeyError). */
  function EffectiveArgs(name: string, clusterArgs: Option<map<string, Json>>,
                         defaults: map<string, Option<map<string, Json>>>): (r: Result<Option<map<string, Json>>>)
    ensures clusterArgs.Some? ==> r == Ok(clusterArgs)
    ensures clusterArgs.None? ==> (r.Ok? <==> name in defaults) && (r.Ok? ==> r.value == defaults[name])
    ensures r.Err? ==> r.error == KeyError
  {
    if clusterArgs.Some? then Ok(clusterArgs)
    else if name in defaults then Ok(defaults[name])
    else Err(KeyError)
  }

  /** `Cluster.cluster`, up to the point where an algorithm is fitted.
      `defaults` stands for the default argument table of the constants
      module. The `_choose_k` result is computed and discarded, so `k`
      never reaches the algorithm; `KMeans` takes its number of clusters
      from `args["k"]`, and rejects `n_clusters`. Calling a clusterer object
      without vectors fails with TypeError. */
  function Cluster(cluster: ClusterArg, clusterArgs: Option<map<string, Json>>, k: Option<int>,
                   defaults: map<string, Option<map<string, Json>>>): (r: Result<Fit>)
    ensures cluster.Unsupported? ==> r == Err(ValueError)
    ensures cluster.Clusterer? ==> r == Err(TypeError)
    ensures cluster.Named? && clusterArgs.None? && cluster.name !in defaults ==> r == Err(KeyError)
    ensures (cluster.Named? && cluster.name in {"kmeans", "kmedoids"} && clusterArgs.None?
             && cluster.name in defaults && defaults[cluster.name].None? && k.Some?)
            ==> r == Err(AttributeError)
    ensures r == Err(NotImplementedError) ==> cluster == Named("kmedoids")
    ensures (cluster == Named("kmedoids") && EffectiveArgs("kmedoids", clusterArgs, defaults).Ok?
             && !(k.Some? && EffectiveArgs("kmedoids", clusterArgs, defaults).value.None?))
            ==> r == Err(NotImplementedError)
    ensures (cluster == Named("kmeans") && EffectiveArgs("kmeans", clusterArgs, defaults).Ok?
             && EffectiveArgs("kmeans", clusterArgs, defaults).value.Some?
             && EffectiveArgs("kmeans", clusterArgs, defaults).value.value.Keys <= KMeansKeywords)
            ==> r.Ok? && r.value.FitKMeans? && r.value.args == EffectiveArgs("kmeans", clusterArgs, defaults).value.value
    ensures (cluster == Named("hdbscan") && EffectiveArgs("hdbscan", clusterArgs, defaults).Ok?
             && EffectiveArgs("hdbscan", clusterArgs, defaults).value.Some?
             && "min_cluster_size" !in EffectiveArgs("hdbscan", clusterArgs, defaults).value.value)
            ==> r == Ok(FitHdbscan(EffectiveArgs("hdbscan", clusterArgs, defaults).value.value))
    ensures cluster.Named? && cluster.name !in {"kmeans", "kmedoids", "hdbscan"} ==> r.Err? && r.error in {KeyError, ValueError}
    ensures r.Ok? && r.value.FitKMeans? ==>
      && cluster == Named("kmeans")
      && r.value.args.Keys <= KMeansKeywords
      && r.value.nClusters == (if "k" in r.value.args then r.value.args["k"] else JInt(KMeansDefaultK))
    ensures r.Ok? && r.value.FitHdbscan? ==> cluster == Named("hdbscan") && "min_cluster_size" !in r.value.args
  {
    match cluster
    case Unsupported => Err(ValueError)
    case Clusterer => Err(TypeError)
    case Named(name) =>
      var effective := EffectiveArgs(name, clusterArgs, defaults);
      if effective.Err? then Err(effective.error)
      else
        var args := effective.value;
        if name == "kmeans" || name == "kmedoids" then
          if k.Some? && args.None? then Err(AttributeError)
          else if name == "kmedoids" then Err(NotImplementedError)
          else if args.None? || !(args.value.Keys <= KMeansKeywords) then Err(TypeError)
          else Ok(FitKMeans(if "k" in args.value then args.value["k"] else JInt(KMeansDefaultK), args.value))
        else if name == "hdbscan" then
          if args.None? || "min_cluster_size" in args.value then Err(TypeError)
          else Ok(FitHdbscan(args.value))
        else Err(ValueError)
  }

  /** With explicit arguments the `k` argument has no effect at all. */
  lemma ClusterIgnoresK(cluster: ClusterArg, clusterArgs: Option<map<string, Json>>, k1: Option<int>, k2: Option<int>,
                        defaults: map<string, Option<map<string, Json>>>)
    requires clusterArgs.Some?
    ensures Cluster(cluster, clusterArgs, k1, defaults) == Cluster(cluster, clusterArgs, k2, defaults)
  {
  }

  /** Asking for `n_clusters` in the arguments of `kmeans` fails. */
  lemma NClustersRejected(args: map<string, Json>, k: Option<int>, defaults: map<string, Option<map<string, Json>>>)
    requires "n_clusters" in args
    ensures Cluster(Named("kmeans"), Some(args), k, defaults) == Err(TypeError)
  {
  }
}
