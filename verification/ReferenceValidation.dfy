/** The reference checks of `validate_coverage_artifact`: catalogs of what the files list, and every
    metric looked up in them. */
module ReferenceValidation {
  import opened Records
  import opened CoverageContract
  import opened Contexts
  import opened CoverageReferences
  import opened CoverageValidation
  import opened ContextValidation

  datatype Catalogs = Catalogs(
    paths: set<string>, functions: set<(string, string)>, sites: set<(string, string)>, edges: set<(string, string, int)>)

  ghost predicate Lists(c: Catalogs, files: seq<Rec>) {
    && (forall path :: path in c.paths <==> HasPath(files, path))
    && (forall path, name :: (path, name) in c.functions <==> HasFunction(files, path, name))
    && (forall path, id :: (path, id) in c.sites <==> HasSite(files, path, id))
    && (forall path, id, index :: (path, id, index) in c.edges <==> HasEdge(files, path, id, index))
  }

  method CatalogPaths(files: seq<Rec>) returns (paths: set<string>)
    ensures forall path :: path in paths <==> HasPath(files, path)
  {
    paths := set f | f in files && f.meta.FileMeta? :: f.meta.path;
  }

  method CatalogFunctions(files: seq<Rec>) returns (functions: set<(string, string)>)
    ensures forall path, name :: (path, name) in functions <==> HasFunction(files, path, name)
  {
    functions := set f, g | f in files && g in Kids(f, Functions) && f.meta.FileMeta? && g.meta.FunctionMeta? ::
      (f.meta.path, g.meta.name);
    forall path, name
      ensures (path, name) in functions <==> HasFunction(files, path, name)
    {
      if (path, name) in functions {
        var f, g :| f in files && g in Kids(f, Functions) && f.meta.FileMeta? && g.meta.FunctionMeta?
          && (f.meta.path, g.meta.name) == (path, name);
        assert IsFile(f, path) && IsFunction(g, name);
      }
    }
  }

  method CatalogSites(files: seq<Rec>) returns (sites: set<(string, string)>)
    ensures forall path, id :: (path, id) in sites <==> HasSite(files, path, id)
  {
    sites := set f, x | f in files && x in Kids(f, Sites) + Kids(f, Branches)
                        && f.meta.FileMeta? && (x.meta.SiteMeta? || x.meta.BranchMeta?) ::
      (f.meta.path, x.meta.siteId);
    forall path, id
      ensures (path, id) in sites <==> HasSite(files, path, id)
    {
      if (path, id) in sites {
        var f, x :| f in files && x in Kids(f, Sites) + Kids(f, Branches) && f.meta.FileMeta?
          && (x.meta.SiteMeta? || x.meta.BranchMeta?) && (f.meta.path, x.meta.siteId) == (path, id);
        assert IsFile(f, path) && HasId(x, id);
      }
    }
  }

  method CatalogEdges(files: seq<Rec>) returns (edges: set<(string, string, int)>)
    ensures forall path, id, index :: (path, id, index) in edges <==> HasEdge(files, path, id, index)
  {
    edges := set f, b, e | f in files && b in Kids(f, Branches) && e in Kids(b, Edges)
                           && f.meta.FileMeta? && (b.meta.SiteMeta? || b.meta.BranchMeta?) && e.meta.EdgeMeta? ::
      (f.meta.path, b.meta.siteId, e.meta.index as int);
    forall path, id, index
      ensures (path, id, index) in edges <==> HasEdge(files, path, id, index)
    {
      if (path, id, index) in edges {
        var f, b, e :| f in files && b in Kids(f, Branches) && e in Kids(b, Edges) && f.meta.FileMeta?
          && (b.meta.SiteMeta? || b.meta.BranchMeta?) && e.meta.EdgeMeta?
          && (f.meta.path, b.meta.siteId, e.meta.index as int) == (path, id, index);
        assert IsFile(f, path) && HasId(b, id) && IsEdge(e, index);
      }
    }
  }

  /** One metric against the catalogs. */
  method CheckReference(m: Meta, c: Catalogs, ghost files: seq<Rec>) returns (ok: bool)
    requires Lists(c, files)
    ensures ok <==> Resolves(m, files)
  {
    if !m.MetricMeta? { return true; }
    if m.file !in c.paths { return false; }
    match m.metricKind
    case FunctionMetric => ok := (m.file, m.function_) in c.functions;
    case StatementMetric => ok := (m.file, m.site) in c.sites;
    case BranchMetric => ok := (m.file, m.site, m.edgeIndex) in c.edges;
  }

  method CheckReferences(metrics: seq<Rec>, files: seq<Rec>) returns (ok: bool)
    ensures ok <==> AllResolve(metrics, files)
  {
    var paths := CatalogPaths(files);
    var functions := CatalogFunctions(files);
    var sites := CatalogSites(files);
    var edges := CatalogEdges(files);
    var catalogs := Catalogs(paths, functions, sites, edges);
    for i := 0 to |metrics|
      invariant forall j :: 0 <= j < i ==> Resolves(metrics[j].meta, files)
    {
      ok := CheckReference(metrics[i].meta, catalogs, files);
      if !ok { return; }
    }
    ok := true;
  }

  /** `validate_coverage_artifact`: files, summary, attribution and references. */
  method ValidateWholeArtifact(files: seq<Rec>, s: Summary, m: Measurement) returns (ok: bool)
    ensures ok <==> ArtifactOk(files, s, m)
  {
    ok := ValidateArtifact(s, files);
    if !ok { return; }
    ok := ValidateMeasurement(m);
    if !ok { return; }
    var normal, metrics, unattributed := CountContexts(m.contexts);
    ok := CheckReferences(metrics, files);
  }
}
