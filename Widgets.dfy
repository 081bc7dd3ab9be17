/**
 * The widget registry: every bundled `.html` asset is exposed as a resource addressed by a
 * `ui://widget/<name>.html` URI, and reading a resource returns its stored HTML.
 */
module Widgets {
  import opened Wrappers
  import opened Text

  const WidgetUriPrefix := "ui://widget/"
  const HtmlSuffix := ".html"
  const SkybridgeMime := "text/html+skybridge"
  const UnknownResourcePrefix := "Unknown resource: "

  /** The rendering hints attached to a tool and to a resource read. */
  datatype WidgetMeta = WidgetMeta(
    outputTemplate: string,
    invoking: string,
    invoked: string,
    widgetAccessible: bool,
    resultCanProduceWidget: bool)

  /** A file of the assets directory: its name and its contents. */
  datatype AssetFile = AssetFile(name: string, html: string)

  /** What the registry stores per URI. */
  datatype WidgetEntry = WidgetEntry(html: string, templateUri: string, title: string)

  /** The rendering hints of a listed resource. */
  datatype ResourceMeta = ResourceMeta(widgetDescription: string, widgetAccessible: bool)

  /** An entry of the resource listing. */
  datatype Resource = Resource(uri: string, name: string, description: string, mimeType: string, meta: ResourceMeta)

  /** The single content item returned by a resource read. */
  datatype ResourceContents = ResourceContents(uri: string, mimeType: string, text: string, meta: WidgetMeta)

  /** The URI under which the widget of `appName` is served. */
  function WidgetUri(appName: string): string {
    WidgetUriPrefix + appName + HtmlSuffix
  }

  /** The rendering hints for the widget of `appName`. */
  function WidgetMetaFor(appName: string): (meta: WidgetMeta)
    ensures meta.outputTemplate == WidgetUri(appName)
    ensures meta.widgetAccessible && meta.resultCanProduceWidget
  {
    WidgetMeta(
      outputTemplate := WidgetUri(appName),
      invoking := "Preparing " + appName + " UI",
      invoked := "Rendered " + appName + " UI",
      widgetAccessible := true,
      resultCanProduceWidget := true)
  }

  /** The last segment of a slash-separated path. */
  function AfterLastSlash(path: string): (segment: string)
    ensures '/' !in segment
  {
    if path == [] || path[|path| - 1] == '/' then []
    else AfterLastSlash(path[..|path| - 1]) + [path[|path| - 1]]
  }

  /**
   * Node's `path.basename(path, ext)` for a path without a trailing slash: the last segment, with `ext`
   * removed when the segment is longer than `ext` and ends with it; a path equal to `ext` gives "".
   */
  function Basename(path: string, ext: string): (base: string)
    ensures '/' !in base
    ensures base <= AfterLastSlash(path)
  {
    var segment := AfterLastSlash(path);
    if ext != [] && path == ext then []
    else if |ext| < |segment| && EndsWith(segment, ext) then segment[..|segment| - |ext|]
    else segment
  }

  /** The name of the app whose widget is stored in file `fileName`. */
  function AppName(fileName: string): (appName: string)
    ensures '/' !in appName
  {
    Basename(fileName, HtmlSuffix)
  }

  /** The widget title: the app name with its first character upper-cased, followed by " Widget". */
  function WidgetTitle(appName: string): (title: string)
    ensures |title| == |appName| + |" Widget"|
    ensures EndsWith(title, " Widget")
    ensures |appName| > 0 ==> title[0] == ToUpperAscii(appName[0])
    ensures forall i :: 0 < i < |appName| ==> title[i] == appName[i]
  {
    if appName == [] then " Widget" else [ToUpperAscii(appName[0])] + appName[1..] + " Widget"
  }

  /** The URI a file is registered under. */
  function EntryUri(file: AssetFile): string {
    WidgetUri(AppName(file.name))
  }

  function EntryFor(file: AssetFile): (entry: WidgetEntry)
    ensures entry.templateUri == EntryUri(file) && entry.html == file.html
    ensures entry.title == WidgetTitle(AppName(file.name))
  {
    var appName := AppName(file.name);
    WidgetEntry(file.html, WidgetUri(appName), WidgetTitle(appName))
  }

  function ResourceFor(file: AssetFile): (r: Resource)
    ensures r.uri == EntryUri(file) && r.mimeType == SkybridgeMime
  {
    var appName := AppName(file.name);
    Resource(
      uri := WidgetUri(appName),
      name := appName + " UI",
      description := "UI for " + appName,
      mimeType := SkybridgeMime,
      meta := ResourceMeta("Displays " + appName + " UI", true))
  }

  /** The files of a directory listing whose name ends in ".html", in listing order. */
  function HtmlFiles(files: seq<AssetFile>): (html: seq<AssetFile>)
    ensures |html| <= |files|
    ensures forall i :: 0 <= i < |html| ==> EndsWith(html[i].name, HtmlSuffix)
  {
    if files == [] then []
    else (if EndsWith(files[0].name, HtmlSuffix) then [files[0]] else []) + HtmlFiles(files[1..])
  }

  /** The filter keeps exactly the ".html" files of the listing. */
  lemma {:induction false} HtmlFilesMembers(files: seq<AssetFile>)
    ensures forall f :: f in HtmlFiles(files) <==> f in files && EndsWith(f.name, HtmlSuffix)
  {
    if files != [] {
      HtmlFilesMembers(files[1..]);
      assert files == [files[0]] + files[1..];
    }
  }

  /** A single file is kept exactly when its name ends in ".html". */
  lemma HtmlFilesSingle(f: AssetFile)
    ensures HtmlFiles([f]) == if EndsWith(f.name, HtmlSuffix) then [f] else []
  {
    assert [f][1..] == [];
  }

  /** Filtering commutes with concatenation, so the kept files stay in listing order with their multiplicity. */
  lemma {:induction false} HtmlFilesAppend(a: seq<AssetFile>, b: seq<AssetFile>)
    ensures HtmlFiles(a + b) == HtmlFiles(a) + HtmlFiles(b)
  {
    if a == [] {
      assert a + b == b;
    } else {
      var keep := if EndsWith(a[0].name, HtmlSuffix) then [a[0]] else [];
      assert (a + b)[0] == a[0];
      assert (a + b)[1..] == a[1..] + b;
      assert HtmlFiles(a + b) == keep + HtmlFiles(a[1..] + b);
      HtmlFilesAppend(a[1..], b);
      assert HtmlFiles(a) == keep + HtmlFiles(a[1..]);
    }
  }

  /** What registering one file contributes: the URI, the entry stored under it, and the listed resource. */
  datatype Registration = Registration(uri: string, entry: WidgetEntry, resource: Resource)

  /** A registration whose entry and resource both name the URI it is stored under. */
  predicate SelfNamed(reg: Registration) {
    reg.entry.templateUri == reg.uri && reg.resource.uri == reg.uri
  }

  /** The per-file work of the loading loop: the app name, the URI, the stored entry and the listed resource. */
  function RegistrationFor(file: AssetFile): (reg: Registration)
    ensures reg.uri == EntryUri(file) && SelfNamed(reg)
  {
    Registration(EntryUri(file), EntryFor(file), ResourceFor(file))
  }

  /** The registrations of `files`, in order. */
  function Registrations(files: seq<AssetFile>): seq<Registration> {
    seq(|files|, k requires 0 <= k < |files| => RegistrationFor(files[k]))
  }

  /** The map after storing the entries of `regs` in order on top of `m`; a later entry wins on a shared URI. */
  function Insert(m: map<string, WidgetEntry>, regs: seq<Registration>): (r: map<string, WidgetEntry>)
    ensures m.Keys <= r.Keys
    ensures regs != [] ==> regs[|regs| - 1].uri in r && r[regs[|regs| - 1].uri] == regs[|regs| - 1].entry
  {
    if regs == [] then m
    else
      var last := regs[|regs| - 1];
      Insert(m, regs[..|regs| - 1])[last.uri := last.entry]
  }

  /** Storing one more registration is one more map update. */
  lemma InsertStep(m: map<string, WidgetEntry>, regs: seq<Registration>, i: nat)
    requires i < |regs|
    ensures Insert(m, regs[..i + 1]) == Insert(m, regs[..i])[regs[i].uri := regs[i].entry]
  {
    assert regs[..i + 1][..i] == regs[..i];
  }

  /** The registry map after registering `files` in order on top of `m`. */
  function Register(m: map<string, WidgetEntry>, files: seq<AssetFile>): (r: map<string, WidgetEntry>)
    ensures m.Keys <= r.Keys
    ensures files != [] ==> EntryUri(files[|files| - 1]) in r && r[EntryUri(files[|files| - 1])] == EntryFor(files[|files| - 1])
  {
    Insert(m, Registrations(files))
  }

  /** The resources of `regs`, in order. */
  function Listing(regs: seq<Registration>): seq<Resource> {
    seq(|regs|, k requires 0 <= k < |regs| => regs[k].resource)
  }

  /** The resources listed for `files`, one per file, in order. */
  function ResourcesFor(files: seq<AssetFile>): seq<Resource> {
    Listing(Registrations(files))
  }

  /** The k-th listed resource is the one for the k-th registered file. */
  lemma ResourcesForAt(files: seq<AssetFile>, k: nat)
    requires k < |files|
    ensures |ResourcesFor(files)| == |files|
    ensures ResourcesFor(files)[k] == ResourceFor(files[k])
  {
  }

  /** Storing entries adds exactly their URIs to the keys. */
  lemma {:induction false} InsertKeys(m: map<string, WidgetEntry>, regs: seq<Registration>)
    ensures Insert(m, regs).Keys == m.Keys + set r | r in regs :: r.uri
  {
    if regs != [] {
      var init, last := regs[..|regs| - 1], regs[|regs| - 1];
      InsertKeys(m, init);
      assert regs == init + [last];
      assert (set r | r in regs :: r.uri) == (set r | r in init :: r.uri) + {last.uri};
    }
  }

  /** An entry that no later entry overrides is the one found under its URI. */
  lemma {:induction false} InsertLookup(m: map<string, WidgetEntry>, regs: seq<Registration>, k: nat)
    requires k < |regs|
    requires forall j :: k < j < |regs| ==> regs[j].uri != regs[k].uri
    ensures regs[k].uri in Insert(m, regs) && Insert(m, regs)[regs[k].uri] == regs[k].entry
  {
    var init := regs[..|regs| - 1];
    if k < |regs| - 1 {
      assert init[k] == regs[k];
      InsertLookup(m, init, k);
    }
  }

  /** The registrations of a listing carry exactly the URIs of its files. */
  lemma RegistrationUris(files: seq<AssetFile>)
    ensures (set r | r in Registrations(files) :: r.uri) == set f | f in files :: EntryUri(f)
  {
    var regs := Registrations(files);
    forall r | r in regs ensures r.uri in set f | f in files :: EntryUri(f) {
      var k :| 0 <= k < |regs| && regs[k] == r;
      assert files[k] in files;
    }
    forall f | f in files ensures EntryUri(f) in set r | r in regs :: r.uri {
      var k :| 0 <= k < |files| && files[k] == f;
      assert regs[k] in regs;
    }
  }

  /** Registration adds exactly the URIs of the registered files to the keys. */
  lemma RegisterKeys(m: map<string, WidgetEntry>, files: seq<AssetFile>)
    ensures Register(m, files).Keys == m.Keys + set f | f in files :: EntryUri(f)
  {
    InsertKeys(m, Registrations(files));
    RegistrationUris(files);
  }

  predicate DistinctNames(files: seq<AssetFile>) {
    forall i, j :: 0 <= i < j < |files| ==> files[i].name != files[j].name
  }

  /** A listing entry: a name with no directory part. */
  predicate PlainName(name: string) {
    '/' !in name
  }

  lemma {:induction false} AfterLastSlashOfPlain(p: string, q: string)
    requires PlainName(q)
    requires p == [] || p[|p| - 1] == '/'
    ensures AfterLastSlash(p + q) == q
    decreases |q|
  {
    if q != [] {
      var init, c := q[..|q| - 1], q[|q| - 1];
      assert q == init + [c];
      assert c in q;
      assert PlainName(init) by {
        forall x | x in init ensures x in q {
          var i :| 0 <= i < |init| && init[i] == x;
          assert q[i] == x;
        }
      }
      var s := p + q;
      assert s[|s| - 1] == c;
      assert s[..|s| - 1] == p + init;
      AfterLastSlashOfPlain(p, init);
      assert AfterLastSlash(s) == AfterLastSlash(p + init) + [c];
    }
  }

  /** Removing a suffix with `Basename` and putting it back gives the plain name again. */
  lemma BasenameRestores(name: string, ext: string)
    requires PlainName(name) && EndsWith(name, ext) && ext != []
    ensures Basename(name, ext) + ext == name
  {
    AfterLastSlashOfPlain([], name);
    assert [] + name == name;
    if name != ext {
      assert name == name[..|name| - |ext|] + ext;
    }
  }

  /** An ".html" file is served at the prefix followed by its own name, so distinct files get distinct URIs. */
  lemma EntryUriOfHtml(file: AssetFile)
    requires EndsWith(file.name, HtmlSuffix) && PlainName(file.name)
    ensures EntryUri(file) == WidgetUriPrefix + file.name
  {
    var stem := AppName(file.name);
    BasenameRestores(file.name, HtmlSuffix);
    assert WidgetUriPrefix + stem + HtmlSuffix == WidgetUriPrefix + (stem + HtmlSuffix);
  }

  /** Reading back a registered file's URI gives the app name, so the read-side rendering hints name its own URI. */
  lemma TemplateOfHtml(file: AssetFile)
    requires EndsWith(file.name, HtmlSuffix) && PlainName(file.name) && file.name != HtmlSuffix
    ensures Basename(EntryUri(file), HtmlSuffix) == AppName(file.name)
    ensures WidgetMetaFor(Basename(EntryUri(file), HtmlSuffix)).outputTemplate == EntryUri(file)
  {
    var name := file.name;
    EntryUriOfHtml(file);
    AfterLastSlashOfPlain([], name);
    assert [] + name == name;
    AfterLastSlashOfPlain(WidgetUriPrefix, name);
  }

  /** Distinct plain ".html" names are served at distinct URIs. */
  lemma EntryUrisDistinct(f: AssetFile, g: AssetFile)
    requires EndsWith(f.name, HtmlSuffix) && PlainName(f.name)
    requires EndsWith(g.name, HtmlSuffix) && PlainName(g.name)
    requires f.name != g.name
    ensures EntryUri(f) != EntryUri(g)
  {
    EntryUriOfHtml(f);
    EntryUriOfHtml(g);
    assert (WidgetUriPrefix + f.name)[|WidgetUriPrefix|..] == f.name;
    assert (WidgetUriPrefix + g.name)[|WidgetUriPrefix|..] == g.name;
  }

  /** With distinct plain ".html" names, each file's URI maps to that file's entry after registration. */
  lemma RegisterLookup(m: map<string, WidgetEntry>, files: seq<AssetFile>, k: nat)
    requires DistinctNames(files)
    requires forall f :: f in files ==> EndsWith(f.name, HtmlSuffix) && PlainName(f.name)
    requires k < |files|
    ensures EntryUri(files[k]) in Register(m, files)
    ensures Register(m, files)[EntryUri(files[k])] == EntryFor(files[k])
  {
    var regs := Registrations(files);
    forall j | k < j < |regs| ensures regs[j].uri != regs[k].uri {
      assert files[j] in files && files[k] in files;
      EntryUrisDistinct(files[j], files[k]);
    }
    InsertLookup(m, regs, k);
  }

  /** Filtering a listing with distinct names keeps the names distinct. */
  lemma {:induction false} HtmlFilesDistinct(files: seq<AssetFile>)
    requires DistinctNames(files)
    ensures DistinctNames(HtmlFiles(files))
  {
    if files != [] {
      var rest := files[1..];
      HtmlFilesMembers(rest);
      HtmlFilesDistinct(rest);
      var tail := HtmlFiles(rest);
      forall f | f in tail ensures f.name != files[0].name {
        var j :| 0 <= j < |rest| && rest[j] == f;
        assert files[j + 1] == f;
      }
    }
  }

  /** The URIs of the listed resources. */
  function ListedUris(rs: seq<Resource>): set<string> {
    set r | r in rs :: r.uri
  }

  /** The stored URIs are exactly the listed ones, and every stored entry names its own URI. */
  ghost predicate Consistent(m: map<string, WidgetEntry>, rs: seq<Resource>) {
    && m.Keys == ListedUris(rs)
    && (forall u :: u in m ==> m[u].templateUri == u)
  }

  /** Storing an entry under its own URI and listing a resource for that URI keeps the registry consistent. */
  lemma AddPreservesConsistent(m: map<string, WidgetEntry>, rs: seq<Resource>, uri: string, entry: WidgetEntry, resource: Resource)
    requires Consistent(m, rs)
    requires entry.templateUri == uri && resource.uri == uri
    ensures Consistent(m[uri := entry], rs + [resource])
  {
    assert ListedUris(rs + [resource]) == ListedUris(rs) + {uri};
  }

  /**
   * The registry of widgets, filled once when the server starts and read by the resource handlers.
   */
  class WidgetRegistry {
    var widgetsByUri: map<string, WidgetEntry>
    var resources: seq<Resource>

    /** The registry's map and listing agree with each other. */
    ghost predicate Valid()
      reads this
    {
      Consistent(widgetsByUri, resources)
    }

    constructor ()
      ensures Valid()
      ensures widgetsByUri == map[] && resources == []
    {
      widgetsByUri := map[];
      resources := [];
    }

    /**
     * Registers every ".html" file of the assets directory; `assets` is None when the directory does not
     * exist, and then nothing changes.
     */
    method LoadAll(assets: Option<seq<AssetFile>>)
      requires Valid()
      modifies this
      ensures Valid()
      ensures assets.None? ==> widgetsByUri == old(widgetsByUri) && resources == old(resources)
      ensures assets.Some? ==>
                && widgetsByUri == Register(old(widgetsByUri), HtmlFiles(assets.value))
                && resources == old(resources) + ResourcesFor(HtmlFiles(assets.value))
    {
      if assets.None? {
        return;
      }
      var regs := Registrations(HtmlFiles(assets.value));
      StoreAll(regs);
    }

    /** Stores the registrations in order: each entry under its URI, each resource appended to the listing. */
    method StoreAll(regs: seq<Registration>)
      requires Valid()
      requires forall k :: 0 <= k < |regs| ==> SelfNamed(regs[k])
      modifies this
      ensures Valid()
      ensures widgetsByUri == Insert(old(widgetsByUri), regs)
      ensures resources == old(resources) + Listing(regs)
    {
      var i := 0;
      while i < |regs|
        invariant 0 <= i <= |regs|
        invariant Valid()
        invariant widgetsByUri == Insert(old(widgetsByUri), regs[..i])
        invariant resources == old(resources) + Listing(regs)[..i]
      {
        InsertStep(old(widgetsByUri), regs, i);
        assert Listing(regs)[..i + 1] == Listing(regs)[..i] + [regs[i].resource];
        Store(regs[i]);
        i := i + 1;
      }
      assert regs[..i] == regs;
      assert Listing(regs)[..i] == Listing(regs);
    }

    /** Stores one registration: the entry under its URI, and its resource at the end of the listing. */
    method Store(reg: Registration)
      requires Valid() && SelfNamed(reg)
      modifies this
      ensures Valid()
      ensures widgetsByUri == old(widgetsByUri)[reg.uri := reg.entry]
      ensures resources == old(resources) + [reg.resource]
    {
      AddPreservesConsistent(widgetsByUri, resources, reg.uri, reg.entry, reg.resource);
      widgetsByUri := widgetsByUri[reg.uri := reg.entry];
      resources := resources + [reg.resource];
    }

    /** The resource-read handler: the stored HTML of a registered URI, or an error naming the URI. */
    method ReadResource(uri: string) returns (result: Result<ResourceContents, string>)
      ensures uri !in widgetsByUri <==> result.Failure?
      ensures uri !in widgetsByUri ==> result.error == UnknownResourcePrefix + uri
      ensures uri in widgetsByUri ==>
                var entry := widgetsByUri[uri];
                && result.value.uri == entry.templateUri
                && result.value.mimeType == SkybridgeMime
                && result.value.text == entry.html
                && result.value.meta == WidgetMetaFor(Basename(entry.templateUri, HtmlSuffix))
      ensures Valid() && uri in widgetsByUri ==> result.value.uri == uri
    {
      if uri !in widgetsByUri {
        return Failure(UnknownResourcePrefix + uri);
      }
      var widget := widgetsByUri[uri];
      result := Success(ResourceContents(
        uri := widget.templateUri,
        mimeType := SkybridgeMime,
        text := widget.html,
        meta := WidgetMetaFor(Basename(widget.templateUri, HtmlSuffix))));
    }
  }
}
