/** The generator of `Kilwinning.xcodeproj/project.pbxproj`.

    The generator derives every object id from a textual key through MD5,
    gives each discovered `.swift` path a file reference and a build file,
    files the paths into six category groups by their first directory and
    prints ten sections of objects by appending text.

    The model keeps two layers: `Describe` says which objects the project
    holds, as values, and `Serialize` prints them the way the generator's
    templates do; `Generate` is the generator itself, a script that fills
    the id tables in a loop and then appends text section by section, and
    its contract is that what it prints is `Serialize(Describe(…))`. The
    cross-reference and ordering rules are proved about `Describe`. */
module XcodeProject {
  import opened Wrappers
  import opened Text
  import opened Seqs

  // ------------------------------------------------------------------ ids

  /** The hexadecimal MD5 digest of the UTF-8 bytes of its argument; the
      digest itself is not modelled. */
  type Digest = string -> string

  predicate IsLowerHex(c: char) { '0' <= c <= '9' || 'a' <= c <= 'f' }
  predicate IsUpperHex(c: char) { '0' <= c <= '9' || 'A' <= c <= 'F' }

  /** What `hexdigest()` returns: 32 lower-case hexadecimal digits. */
  predicate IsHexDigest(d: string) {
    |d| == 32 && forall i :: 0 <= i < |d| ==> IsLowerHex(d[i])
  }

  /** `md5(seed).hexdigest()[:24].upper()`. */
  function GenerateUuid(md5: Digest, seed: string): string {
    var d := md5(seed);
    UpperStr(d[..if |d| < 24 then |d| else 24])
  }

  /** An id is at most 24 characters long, and exactly 24 upper-case
      hexadecimal digits when the digest is a proper hexadecimal digest. */
  lemma UuidShape(md5: Digest, seed: string)
    ensures |GenerateUuid(md5, seed)| <= 24
    ensures IsHexDigest(md5(seed)) ==>
      |GenerateUuid(md5, seed)| == 24 && forall i :: 0 <= i < 24 ==> IsUpperHex(GenerateUuid(md5, seed)[i])
  {
    var d := md5(seed);
    var t := d[..if |d| < 24 then |d| else 24];
    UpperStrSpec(t);
  }

  function FileRefId(md5: Digest, f: string): string { GenerateUuid(md5, "fileref_" + f) }
  function BuildFileId(md5: Digest, f: string): string { GenerateUuid(md5, "buildfile_" + f) }

  /** `file_refs` or `build_files`: every discovered path maps to the id of
      `prefix + path`. */
  ghost predicate IdTable(md5: Digest, table: map<string, string>, files: seq<string>, prefix: string) {
    (forall f :: f in table <==> f in files)
    && forall f :: f in table ==> table[f] == GenerateUuid(md5, prefix + f)
  }

  // --------------------------------------------------------- object model

  /** An id followed by its `/* … */` comment. */
  datatype Ref = Ref(id: string, comment: string)

  /** The line under a group's children: none, `name = …;` or `path = …;`. */
  datatype Label = NoLabel | Name(name: string) | Path(path: string)

  datatype PbxObject =
    | BuildFile(id: string, name: string, phase: string, fileRef: Ref)
    | FileReference(id: string, comment: string, explicit: bool, fileType: string, path: string, sourceTree: string)
    | BuildPhase(id: string, kind: string, files: seq<Ref>)
    | Group(id: string, groupComment: Option<string>, children: seq<Ref>, naming: Label)
    | NativeTarget(id: string, name: string, configList: Ref, phases: seq<Ref>, product: Ref, productType: string)
    | Project(id: string, target: Ref, configList: Ref, mainGroup: string, productsGroup: Ref)
    | BuildConfiguration(id: string, name: string, settings: string)
    | ConfigurationList(id: string, comment: string, configs: seq<Ref>, defaultName: string)

  datatype Section = Section(name: string, objects: seq<PbxObject>)

  datatype Document = Document(sections: seq<Section>, rootObject: Ref)

  datatype GenError = MissingAppEntry

  /** The six category groups, in the order the generator prints them. */
  datatype Category = Core | Models | Views | Services | Repositories | Utilities {
    /** The group's display name and the directory it collects. */
    function Name(): string {
      match this
      case Core => "Core"
      case Models => "Models"
      case Views => "Views"
      case Services => "Services"
      case Repositories => "Repositories"
      case Utilities => "Utilities"
    }

    /** The key of the group's id. */
    function Seed(): string {
      match this
      case Core => "core_group"
      case Models => "models_group"
      case Views => "views_group"
      case Services => "services_group"
      case Repositories => "repositories_group"
      case Utilities => "utilities_group"
    }
  }

  const Categories: seq<Category> := [Core, Models, Views, Services, Repositories, Utilities]

  const AppEntry: string := "KilwinningApp.swift"

  // ------------------------------------------------------------ rendering

  function RefText(r: Ref): string { r.id + " /* " + r.comment + " */" }

  function RefLine(r: Ref): string { "\t\t\t\t" + RefText(r) + ",\n" }

  /** One `\t\t\t\t<ref>,` line per element, in order. */
  function RefLines(refs: seq<Ref>): string { Concat(refs, RefLine) }

  function LabelLine(l: Label): string {
    match l
    case NoLabel => ""
    case Name(n) => "\t\t\tname = " + n + ";\n"
    case Path(p) => "\t\t\tpath = " + p + ";\n"
  }

  function Render(o: PbxObject): string {
    match o
    case BuildFile(id, name, phase, ref) =>
      "\t\t" + id + " /* " + name + " in " + phase + " */ = {isa = PBXBuildFile; fileRef = "
        + RefText(ref) + "; };\n"
    case FileReference(id, comment, explicit, fileType, path, tree) =>
      "\t\t" + id + " /* " + comment + " */ = {isa = PBXFileReference; "
        + (if explicit then "explicitFileType = " + fileType + "; includeInIndex = 0; "
           else "lastKnownFileType = " + fileType + "; ")
        + "path = " + path + "; sourceTree = " + tree + "; };\n"
    case BuildPhase(id, kind, files) =>
      "\t\t" + id + " /* " + kind + " */ = {\n\t\t\tisa = PBX" + kind + "BuildPhase;\n"
        + "\t\t\tbuildActionMask = 2147483647;\n\t\t\tfiles = (\n" + RefLines(files)
        + "\t\t\t);\n\t\t\trunOnlyForDeploymentPostprocessing = 0;\n\t\t};\n"
    case Group(id, groupComment, children, naming) =>
      "\t\t" + id + (match groupComment case Some(c) => " /* " + c + " */" case None => "")
        + " = {\n\t\t\tisa = PBXGroup;\n\t\t\tchildren = (\n" + RefLines(children) + "\t\t\t);\n"
        + LabelLine(naming) + "\t\t\tsourceTree = \"<group>\";\n\t\t};\n"
    case NativeTarget(id, name, configList, phases, product, productType) =>
      "\t\t" + id + " /* " + name + " */ = {\n\t\t\tisa = PBXNativeTarget;\n"
        + "\t\t\tbuildConfigurationList = " + RefText(configList) + ";\n"
        + "\t\t\tbuildPhases = (\n" + RefLines(phases) + "\t\t\t);\n"
        + "\t\t\tbuildRules = (\n\t\t\t);\n\t\t\tdependencies = (\n\t\t\t);\n"
        + "\t\t\tname = " + name + ";\n\t\t\tproductName = " + name + ";\n"
        + "\t\t\tproductReference = " + RefText(product) + ";\n"
        + "\t\t\tproductType = \"" + productType + "\";\n\t\t};\n"
    case Project(id, target, configList, mainGroup, productsGroup) =>
      "\t\t" + id + " /* Project object */ = {\n\t\t\tisa = PBXProject;\n\t\t\tattributes = {\n"
        + "\t\t\t\tBuildIndependentTargetsInParallel = 1;\n\t\t\t\tLastSwiftUpdateCheck = 1500;\n"
        + "\t\t\t\tLastUpgradeCheck = 1500;\n\t\t\t\tTargetAttributes = {\n"
        + "\t\t\t\t\t" + target.id + " = {\n\t\t\t\t\t\tCreatedOnToolsVersion = 15.0;\n"
        + "\t\t\t\t\t};\n\t\t\t\t};\n\t\t\t};\n"
        + "\t\t\tbuildConfigurationList = " + RefText(configList) + ";\n"
        + "\t\t\tcompatibilityVersion = \"Xcode 14.0\";\n\t\t\tdevelopmentRegion = en;\n"
        + "\t\t\thasScannedForEncodings = 0;\n\t\t\tknownRegions = (\n\t\t\t\ten,\n\t\t\t\tBase,\n\t\t\t);\n"
        + "\t\t\tmainGroup = " + mainGroup + ";\n"
        + "\t\t\tproductRefGroup = " + RefText(productsGroup) + ";\n"
        + "\t\t\tprojectDirPath = \"\";\n\t\t\tprojectRoot = \"\";\n"
        + "\t\t\ttargets = (\n" + RefLines([target]) + "\t\t\t);\n\t\t};\n"
    case BuildConfiguration(id, name, settings) =>
      "\t\t" + id + " /* " + name + " */ = {\n\t\t\tisa = XCBuildConfiguration;\n"
        + "\t\t\tbuildSettings = {\n" + settings + "\t\t\t};\n"
        + "\t\t\tname = " + name + ";\n\t\t};\n"
    case ConfigurationList(id, comment, configs, defaultName) =>
      "\t\t" + id + " /* " + comment + " */ = {\n\t\t\tisa = XCConfigurationList;\n"
        + "\t\t\tbuildConfigurations = (\n" + RefLines(configs) + "\t\t\t);\n"
        + "\t\t\tdefaultConfigurationIsVisible = 0;\n"
        + "\t\t\tdefaultConfigurationName = " + defaultName + ";\n\t\t};\n"
  }

  function ObjectsText(objs: seq<PbxObject>): string { Concat(objs, Render) }

  function BeginLine(name: string): string { "\n/* Begin " + name + " section */\n" }
  function EndLine(name: string): string { "/* End " + name + " section */\n" }

  function SectionText(s: Section): string {
    BeginLine(s.name) + ObjectsText(s.objects) + EndLine(s.name)
  }

  function SectionsText(ss: seq<Section>): string { Concat(ss, SectionText) }

  const Header: string :=
    "// !$*UTF8*$!\n{\n\tarchiveVersion = 1;\n\tclasses = {\n\t};\n\tobjectVersion = 56;\n\tobjects = {\n"

  function Footer(root: Ref): string { "\t};\n\trootObject = " + RefText(root) + ";\n}\n" }

  /** The text of `project.pbxproj`. */
  function Serialize(doc: Document): string {
    Header + SectionsText(doc.sections) + Footer(doc.rootObject)
  }

  function SerializeResult(d: Result<Document, GenError>): Result<string, GenError> {
    match d
    case Ok(doc) => Ok(Serialize(doc))
    case Err(e) => Err(e)
  }

  // ----------------------------------------------------------- discovery

  /** Python orders `Path` objects by their lists of `/`-separated parts. */
  predicate PathLess(a: string, b: string) { LexLess(Segments(a), Segments(b), StrLess) }

  lemma PathLessStrict()
    ensures StrictOrder(PathLess)
  {
    StrLessStrictTotal();
    forall a: string ensures !PathLess(a, a) {
      LexLessIrreflexive(Segments(a), StrLess);
    }
    forall a: string, b: string, c: string | PathLess(a, b) && PathLess(b, c)
      ensures PathLess(a, c)
    {
      LexLessTransitive(Segments(a), Segments(b), Segments(c), StrLess);
    }
  }

  /** `sorted(project_root.rglob("*.swift"))`, relative to the root. */
  function SwiftFiles(found: seq<string>): seq<string> { SortBy(found, PathLess) }

  /** The files come out in path order and are exactly the ones found. */
  lemma SwiftFilesSorted(found: seq<string>)
    ensures SortedBy(SwiftFiles(found), PathLess)
    ensures multiset(SwiftFiles(found)) == multiset(found)
  {
    PathLessStrict();
    SortBySorted(found, PathLess);
  }

  // ------------------------------------------------------------- objects

  // the fixed keys of the generator's ids
  function MainGroupId(md5: Digest): string { GenerateUuid(md5, "main_group") }
  function ProductsGroupId(md5: Digest): string { GenerateUuid(md5, "products_group") }
  function SourcesPhaseId(md5: Digest): string { GenerateUuid(md5, "sources_phase") }
  function ResourcesPhaseId(md5: Digest): string { GenerateUuid(md5, "resources_phase") }
  function FrameworksPhaseId(md5: Digest): string { GenerateUuid(md5, "frameworks_phase") }
  function TargetId(md5: Digest): string { GenerateUuid(md5, "target") }
  function ProjectId(md5: Digest): string { GenerateUuid(md5, "project") }
  function ConfigListProjectId(md5: Digest): string { GenerateUuid(md5, "config_list_project") }
  function ConfigListTargetId(md5: Digest): string { GenerateUuid(md5, "config_list_target") }
  function DebugConfigId(md5: Digest): string { GenerateUuid(md5, "debug_config") }
  function ReleaseConfigId(md5: Digest): string { GenerateUuid(md5, "release_config") }
  function AppProductId(md5: Digest): string { GenerateUuid(md5, "app_product") }
  function InfoPlistId(md5: Digest): string { GenerateUuid(md5, "info_plist") }
  function AssetsId(md5: Digest): string { GenerateUuid(md5, "assets") }
  function ConfigPlistId(md5: Digest): string { GenerateUuid(md5, "config_plist") }
  function AssetsBuildFileId(md5: Digest): string { GenerateUuid(md5, "buildfile_assets") }
  function ConfigBuildFileId(md5: Digest): string { GenerateUuid(md5, "buildfile_config") }
  function CategoryGroupId(md5: Digest, c: Category): string { GenerateUuid(md5, c.Seed()) }

  function SourceBuildFile(md5: Digest, f: string): PbxObject {
    BuildFile(BuildFileId(md5, f), f, "Sources", Ref(FileRefId(md5, f), f))
  }

  function SourceBuildFiles(md5: Digest, files: seq<string>): (r: seq<PbxObject>)
    ensures |r| == |files|
    ensures forall k :: 0 <= k < |files| ==> r[k] == SourceBuildFile(md5, files[k])
  {
    if files == [] then []
    else SourceBuildFiles(md5, files[..|files| - 1]) + [SourceBuildFile(md5, files[|files| - 1])]
  }

  lemma SourceBuildFilesStep(md5: Digest, files: seq<string>, i: nat)
    requires i < |files|
    ensures SourceBuildFiles(md5, files[..i + 1]) == SourceBuildFiles(md5, files[..i]) + [SourceBuildFile(md5, files[i])]
  {
    assert files[..i + 1][..i] == files[..i];
  }

  function AssetsBuildFile(md5: Digest): PbxObject {
    BuildFile(AssetsBuildFileId(md5), "Assets.xcassets", "Resources", Ref(AssetsId(md5), "Assets.xcassets"))
  }

  function ConfigBuildFile(md5: Digest): PbxObject {
    BuildFile(ConfigBuildFileId(md5), "Config.plist", "Resources", Ref(ConfigPlistId(md5), "Config.plist"))
  }

  function BuildFileSection(md5: Digest, files: seq<string>): Section {
    Section("PBXBuildFile", SourceBuildFiles(md5, files) + [AssetsBuildFile(md5), ConfigBuildFile(md5)])
  }

  function SourceFileRef(md5: Digest, f: string): PbxObject {
    FileReference(FileRefId(md5, f), f, false, "sourcecode.swift", "\"" + Basename(f) + "\"", "\"<group>\"")
  }

  function SourceFileRefs(md5: Digest, files: seq<string>): (r: seq<PbxObject>)
    ensures |r| == |files|
    ensures forall k :: 0 <= k < |files| ==> r[k] == SourceFileRef(md5, files[k])
  {
    if files == [] then []
    else SourceFileRefs(md5, files[..|files| - 1]) + [SourceFileRef(md5, files[|files| - 1])]
  }

  lemma SourceFileRefsStep(md5: Digest, files: seq<string>, i: nat)
    requires i < |files|
    ensures SourceFileRefs(md5, files[..i + 1]) == SourceFileRefs(md5, files[..i]) + [SourceFileRef(md5, files[i])]
  {
    assert files[..i + 1][..i] == files[..i];
  }

  /** The product, `Info.plist`, the asset catalog and `Config.plist`. */
  function FixedFileRefs(md5: Digest): seq<PbxObject> {
    [ FileReference(AppProductId(md5), "Kilwinning.app", true, "wrapper.application", "Kilwinning.app", "BUILT_PRODUCTS_DIR"),
      FileReference(InfoPlistId(md5), "Info.plist", false, "text.plist.xml", "Info.plist", "\"<group>\""),
      FileReference(AssetsId(md5), "Assets.xcassets", false, "folder.assetcatalog", "Assets.xcassets", "\"<group>\""),
      FileReference(ConfigPlistId(md5), "Config.plist", false, "text.plist.xml", "Config.plist", "\"<group>\"") ]
  }

  function FileReferenceSection(md5: Digest, files: seq<string>): Section {
    Section("PBXFileReference", FixedFileRefs(md5) + SourceFileRefs(md5, files))
  }

  function FrameworksPhase(md5: Digest): PbxObject { BuildPhase(FrameworksPhaseId(md5), "Frameworks", []) }

  function FrameworksSection(md5: Digest): Section {
    Section("PBXFrameworksBuildPhase", [FrameworksPhase(md5)])
  }

  function CategoryRef(md5: Digest, c: Category): Ref { Ref(CategoryGroupId(md5, c), c.Name()) }

  /** The main group's first six children: the category groups in order. */
  function CategoryRefs(md5: Digest): (r: seq<Ref>)
    ensures |r| == |Categories|
  {
    seq(|Categories|, k requires 0 <= k < |Categories| => CategoryRef(md5, Categories[k]))
  }

  /** The main group's eleven children, the app entry's file reference
      seventh. */
  function MainGroup(md5: Digest, appRef: string): PbxObject {
    Group(MainGroupId(md5), None,
      CategoryRefs(md5)
      + [ Ref(appRef, AppEntry),
          Ref(InfoPlistId(md5), "Info.plist"),
          Ref(AssetsId(md5), "Assets.xcassets"),
          Ref(ConfigPlistId(md5), "Config.plist"),
          Ref(ProductsGroupId(md5), "Products") ],
      NoLabel)
  }

  function ProductsGroup(md5: Digest): PbxObject {
    Group(ProductsGroupId(md5), Some("Products"), [Ref(AppProductId(md5), "Kilwinning.app")], Name("Products"))
  }

  predicate InCategory(c: Category, f: string) { c.Name() + "/" <= f }

  /** `[f for f in swift_files if f.startswith("<Category>/")]`. */
  function CategoryFiles(files: seq<string>, c: Category): (r: seq<string>)
    ensures forall k :: 0 <= k < |r| ==> r[k] in files && InCategory(c, r[k])
    ensures forall k :: 0 <= k < |files| && InCategory(c, files[k]) ==> files[k] in r
  {
    Filter(files, f => InCategory(c, f))
  }

  function GroupChild(md5: Digest, f: string): Ref { Ref(FileRefId(md5, f), Basename(f)) }

  function GroupChildren(md5: Digest, fs: seq<string>): (r: seq<Ref>)
    ensures |r| == |fs|
    ensures forall k :: 0 <= k < |fs| ==> r[k] == GroupChild(md5, fs[k])
  {
    if fs == [] then []
    else GroupChildren(md5, fs[..|fs| - 1]) + [GroupChild(md5, fs[|fs| - 1])]
  }

  lemma GroupChildrenStep(md5: Digest, fs: seq<string>, i: nat)
    requires i < |fs|
    ensures GroupChildren(md5, fs[..i + 1]) == GroupChildren(md5, fs[..i]) + [GroupChild(md5, fs[i])]
  {
    assert fs[..i + 1][..i] == fs[..i];
  }

  function CategoryGroup(md5: Digest, files: seq<string>, c: Category): PbxObject {
    Group(CategoryGroupId(md5, c), Some(c.Name()), GroupChildren(md5, CategoryFiles(files, c)), Path(c.Name()))
  }

  function CategoryGroups(md5: Digest, files: seq<string>, n: nat): (r: seq<PbxObject>)
    requires n <= |Categories|
    ensures |r| == n
    ensures forall k :: 0 <= k < n ==> r[k] == CategoryGroup(md5, files, Categories[k])
  {
    if n == 0 then []
    else CategoryGroups(md5, files, n - 1) + [CategoryGroup(md5, files, Categories[n - 1])]
  }

  function GroupSection(md5: Digest, files: seq<string>, appRef: string): Section {
    Section("PBXGroup", [MainGroup(md5, appRef), ProductsGroup(md5)] + CategoryGroups(md5, files, 6))
  }

  const TargetListComment: string := "Build configuration list for PBXNativeTarget \"Kilwinning\""
  const ProjectListComment: string := "Build configuration list for PBXProject \"Kilwinning\""

  function Target(md5: Digest): PbxObject {
    NativeTarget(TargetId(md5), "Kilwinning",
      Ref(ConfigListTargetId(md5), TargetListComment),
      [Ref(SourcesPhaseId(md5), "Sources"), Ref(FrameworksPhaseId(md5), "Frameworks"), Ref(ResourcesPhaseId(md5), "Resources")],
      Ref(AppProductId(md5), "Kilwinning.app"),
      "com.apple.product-type.application")
  }

  function TargetSection(md5: Digest): Section { Section("PBXNativeTarget", [Target(md5)]) }

  function ProjectObject(md5: Digest): PbxObject {
    Project(ProjectId(md5), Ref(TargetId(md5), "Kilwinning"),
      Ref(ConfigListProjectId(md5), ProjectListComment),
      MainGroupId(md5), Ref(ProductsGroupId(md5), "Products"))
  }

  function ProjectSection(md5: Digest): Section { Section("PBXProject", [ProjectObject(md5)]) }

  function ResourcesPhase(md5: Digest): PbxObject {
    BuildPhase(ResourcesPhaseId(md5), "Resources",
      [Ref(AssetsBuildFileId(md5), "Assets.xcassets in Resources"), Ref(ConfigBuildFileId(md5), "Config.plist in Resources")])
  }

  function ResourcesSection(md5: Digest): Section { Section("PBXResourcesBuildPhase", [ResourcesPhase(md5)]) }

  function SourceEntry(md5: Digest, f: string): Ref { Ref(BuildFileId(md5, f), f + " in Sources") }

  function SourceEntries(md5: Digest, files: seq<string>): (r: seq<Ref>)
    ensures |r| == |files|
    ensures forall k :: 0 <= k < |files| ==> r[k] == SourceEntry(md5, files[k])
  {
    if files == [] then []
    else SourceEntries(md5, files[..|files| - 1]) + [SourceEntry(md5, files[|files| - 1])]
  }

  lemma SourceEntriesStep(md5: Digest, files: seq<string>, i: nat)
    requires i < |files|
    ensures SourceEntries(md5, files[..i + 1]) == SourceEntries(md5, files[..i]) + [SourceEntry(md5, files[i])]
  {
    assert files[..i + 1][..i] == files[..i];
  }

  function SourcesPhase(md5: Digest, files: seq<string>): PbxObject {
    BuildPhase(SourcesPhaseId(md5), "Sources", SourceEntries(md5, files))
  }

  function SourcesSection(md5: Digest, files: seq<string>): Section {
    Section("PBXSourcesBuildPhase", [SourcesPhase(md5, files)])
  }

  function ConfigRefs(md5: Digest): seq<Ref> {
    [Ref(DebugConfigId(md5), "Debug"), Ref(ReleaseConfigId(md5), "Release")]
  }

  /** The two configurations; their build settings are constant text. */
  function ConfigurationSection(md5: Digest, debugSettings: string, releaseSettings: string): Section {
    Section("XCBuildConfiguration",
      [BuildConfiguration(DebugConfigId(md5), "Debug", debugSettings),
       BuildConfiguration(ReleaseConfigId(md5), "Release", releaseSettings)])
  }

  function ConfigListSection(md5: Digest): Section {
    Section("XCConfigurationList",
      [ConfigurationList(ConfigListProjectId(md5), ProjectListComment, ConfigRefs(md5), "Release"),
       ConfigurationList(ConfigListTargetId(md5), TargetListComment, ConfigRefs(md5), "Release")])
  }

  function ProjectRootRef(md5: Digest): Ref { Ref(ProjectId(md5), "Project object") }

  /** The ten sections, in the order they are printed. */
  function SectionsFor(md5: Digest, files: seq<string>, appRef: string, debugSettings: string, releaseSettings: string)
    : seq<Section>
  {
    [ BuildFileSection(md5, files),
      FileReferenceSection(md5, files),
      FrameworksSection(md5),
      GroupSection(md5, files, appRef),
      TargetSection(md5),
      ProjectSection(md5),
      ResourcesSection(md5),
      SourcesSection(md5, files),
      ConfigurationSection(md5, debugSettings, releaseSettings),
      ConfigListSection(md5) ]
  }

  function DocumentFor(md5: Digest, files: seq<string>, debugSettings: string, releaseSettings: string): Document
    requires AppEntry in files
  {
    Document(SectionsFor(md5, files, FileRefId(md5, AppEntry), debugSettings, releaseSettings), ProjectRootRef(md5))
  }

  /** The project described by the generator for the paths `found` by the
      walk; it fails when `KilwinningApp.swift` is not among them, since
      the main group looks its file reference up. */
  function Describe(md5: Digest, found: seq<string>, debugSettings: string, releaseSettings: string)
    : (r: Result<Document, GenError>)
    ensures r.Err? <==> AppEntry !in found
  {
    var files := SwiftFiles(found);
    assert AppEntry in files <==> AppEntry in found by {
      SwiftFilesSorted(found);
      assert AppEntry in files <==> AppEntry in multiset(files);
      assert AppEntry in found <==> AppEntry in multiset(found);
    }
    if AppEntry in files then Ok(DocumentFor(md5, files, debugSettings, releaseSettings))
    else Err(MissingAppEntry)
  }

  // ----------------------------------------------------------- properties

  /** Some object of `objs` is a file reference with id `id`. */
  ghost predicate DefinesFileRef(objs: seq<PbxObject>, id: string) {
    exists j :: 0 <= j < |objs| && objs[j].FileReference? && objs[j].id == id
  }

  /** Some object of `objs` is a build file with id `id`. */
  ghost predicate DefinesBuildFile(objs: seq<PbxObject>, id: string) {
    exists j :: 0 <= j < |objs| && objs[j].BuildFile? && objs[j].id == id
  }

  /** The build file of a source path has the path's
      build-file id and refers to the path's file reference; the two
      resource build files follow. */
  lemma SourceBuildFilesMatch(md5: Digest, files: seq<string>)
    ensures var b := BuildFileSection(md5, files).objects;
      |b| == |files| + 2
      && forall k :: 0 <= k < |files| ==>
           b[k].BuildFile? && b[k].id == BuildFileId(md5, files[k])
           && b[k].fileRef == Ref(FileRefId(md5, files[k]), files[k])
  {
  }

  /** A file reference of `b` is one of `a + b`. */
  lemma DefinesFileRefSuffix(a: seq<PbxObject>, b: seq<PbxObject>, k: nat)
    requires k < |b| && b[k].FileReference?
    ensures DefinesFileRef(a + b, b[k].id)
  {
    assert (a + b)[|a| + k] == b[k];
  }

  /** Every discovered path has a file reference. */
  lemma SourceFileRefsDefined(md5: Digest, files: seq<string>)
    ensures forall k :: 0 <= k < |files| ==>
      DefinesFileRef(FileReferenceSection(md5, files).objects, FileRefId(md5, files[k]))
  {
    var s := SourceFileRefs(md5, files);
    forall k | 0 <= k < |files| ensures DefinesFileRef(FixedFileRefs(md5) + s, FileRefId(md5, files[k])) {
      DefinesFileRefSuffix(FixedFileRefs(md5), s, k);
    }
  }

  /** The product, `Info.plist`, the asset catalog and
      `Config.plist` have file references. */
  lemma FixedFileRefsDefined(md5: Digest, files: seq<string>)
    ensures var r := FileReferenceSection(md5, files).objects;
      DefinesFileRef(r, AppProductId(md5)) && DefinesFileRef(r, InfoPlistId(md5))
      && DefinesFileRef(r, AssetsId(md5)) && DefinesFileRef(r, ConfigPlistId(md5))
  {
    var r := FileReferenceSection(md5, files).objects;
    assert r[0].id == AppProductId(md5) && r[1].id == InfoPlistId(md5);
    assert r[2].id == AssetsId(md5) && r[3].id == ConfigPlistId(md5);
  }

  /** Every build file, of a source or of
      a resource, names a file reference of the file-reference section. */
  lemma BuildFilesResolve(md5: Digest, files: seq<string>)
    ensures var b := BuildFileSection(md5, files).objects;
      forall k :: 0 <= k < |b| ==>
        b[k].BuildFile? && DefinesFileRef(FileReferenceSection(md5, files).objects, b[k].fileRef.id)
  {
    SourceFileRefsDefined(md5, files);
    FixedFileRefsDefined(md5, files);
    var b := BuildFileSection(md5, files).objects;
    forall k | 0 <= k < |b|
      ensures b[k].BuildFile? && DefinesFileRef(FileReferenceSection(md5, files).objects, b[k].fileRef.id)
    {
      if k < |files| {
        assert b[k].fileRef.id == FileRefId(md5, files[k]);
      } else if k == |files| {
        assert b[k].fileRef.id == AssetsId(md5);
      } else {
        assert b[k].fileRef.id == ConfigPlistId(md5);
      }
    }
  }

  /** The Sources phase lists one build file per path, in
      the order of the paths, each defined in the build-file section. */
  lemma SourcesPhaseLists(md5: Digest, files: seq<string>)
    ensures var p := SourcesPhase(md5, files);
      p.BuildPhase? && p.kind == "Sources" && |p.files| == |files|
      && (forall k :: 0 <= k < |files| ==>
            p.files[k].id == BuildFileId(md5, files[k])
            && DefinesBuildFile(BuildFileSection(md5, files).objects, p.files[k].id))
  {
    var b := BuildFileSection(md5, files).objects;
    var p := SourcesPhase(md5, files);
    forall k | 0 <= k < |files| ensures DefinesBuildFile(b, p.files[k].id) {
      assert b[k] == SourceBuildFile(md5, files[k]);
    }
  }

  /** A category holds exactly the paths under its
      directory, in the order of the paths; a path under none of the six
      directories is in no category. */
  lemma CategoryFilesExact(files: seq<string>, c: Category)
    ensures forall f :: f in CategoryFiles(files, c) <==> f in files && InCategory(c, f)
    ensures SortedBy(files, PathLess) ==> SortedBy(CategoryFiles(files, c), PathLess)
  {
    var r := CategoryFiles(files, c);
    forall f | f in r ensures f in files && InCategory(c, f) {
      var k :| 0 <= k < |r| && r[k] == f;
    }
    forall f | f in files && InCategory(c, f) ensures f in r {
      var k :| 0 <= k < |files| && files[k] == f;
    }
    if SortedBy(files, PathLess) {
      FilterSorted(files, f => InCategory(c, f), PathLess);
    }
  }

  /** The group section holds the main group, the products
      group and the six category groups in their fixed order, an empty one
      included. */
  lemma GroupSectionLayout(md5: Digest, files: seq<string>, appRef: string)
    ensures var groups := GroupSection(md5, files, appRef).objects;
      |groups| == 8 && groups[0] == MainGroup(md5, appRef) && groups[1] == ProductsGroup(md5)
      && forall k :: 0 <= k < 6 ==> groups[2 + k] == CategoryGroup(md5, files, Categories[k])
  {
  }

  /** A category group's children are the file references
      of its paths, in order, under their base names, each defined in the
      file-reference section. */
  lemma CategoryGroupChildren(md5: Digest, files: seq<string>, c: Category)
    ensures var g, fs := CategoryGroup(md5, files, c), CategoryFiles(files, c);
      g.Group? && g.id == CategoryGroupId(md5, c) && g.naming == Path(c.Name())
      && |g.children| == |fs|
      && forall i :: 0 <= i < |fs| ==>
           g.children[i] == Ref(FileRefId(md5, fs[i]), Basename(fs[i]))
           && DefinesFileRef(FileReferenceSection(md5, files).objects, g.children[i].id)
  {
    SourceFileRefsDefined(md5, files);
    var fs := CategoryFiles(files, c);
    forall i | 0 <= i < |fs| ensures DefinesFileRef(FileReferenceSection(md5, files).objects, FileRefId(md5, fs[i])) {
      var m :| 0 <= m < |files| && files[m] == fs[i];
    }
  }

  /** The main group lists the six category groups first,
      in their fixed order (their ids are those of `GroupsPartition`). */
  lemma MainGroupCategories(md5: Digest, appRef: string)
    ensures var g := MainGroup(md5, appRef);
      g.Group? && g.id == MainGroupId(md5) && |g.children| == 11
      && forall k :: 0 <= k < 6 ==> g.children[k] == Ref(CategoryGroupId(md5, Categories[k]), Categories[k].Name())
  {
  }

  /** After the category groups come the app entry's file
      reference, the three resource files and the products group. */
  lemma MainGroupFiles(md5: Digest, appRef: string)
    ensures var g := MainGroup(md5, appRef);
      |g.children| == 11
      && g.children[6] == Ref(appRef, AppEntry)
      && g.children[7].id == InfoPlistId(md5) && g.children[8].id == AssetsId(md5)
      && g.children[9].id == ConfigPlistId(md5) && g.children[10].id == ProductsGroup(md5).id
  {
  }

  /** The app entry and the three resource files the main
      group lists are file references of the project; the lookup of the app
      entry needs it among the paths. */
  lemma MainGroupFilesDefined(md5: Digest, files: seq<string>)
    requires AppEntry in files
    ensures var refs := FileReferenceSection(md5, files).objects;
      DefinesFileRef(refs, FileRefId(md5, AppEntry))
      && DefinesFileRef(refs, InfoPlistId(md5)) && DefinesFileRef(refs, AssetsId(md5))
      && DefinesFileRef(refs, ConfigPlistId(md5))
  {
    SourceFileRefsDefined(md5, files);
    FixedFileRefsDefined(md5, files);
    var m :| 0 <= m < |files| && files[m] == AppEntry;
  }

  /** The Resources phase lists the asset
      catalog's build file, then Config.plist's, both defined in the
      build-file section. */
  lemma ResourcesPhaseLists(md5: Digest, files: seq<string>)
    ensures var p := ResourcesPhase(md5);
      p.BuildPhase? && p.kind == "Resources"
      && |p.files| == 2 && p.files[0].id == AssetsBuildFileId(md5) && p.files[1].id == ConfigBuildFileId(md5)
      && DefinesBuildFile(BuildFileSection(md5, files).objects, p.files[0].id)
      && DefinesBuildFile(BuildFileSection(md5, files).objects, p.files[1].id)
  {
    var b := BuildFileSection(md5, files).objects;
    assert b[|files|] == AssetsBuildFile(md5) && b[|files| + 1] == ConfigBuildFile(md5);
  }

  /** Both configuration lists name Debug then Release, as
      defined in the configuration section, with Release the default; the
      root object is the project object. */
  lemma ConfigListsAndRoot(md5: Digest, debugSettings: string, releaseSettings: string)
    ensures var cs, ls := ConfigurationSection(md5, debugSettings, releaseSettings).objects, ConfigListSection(md5).objects;
      |cs| == 2 && cs[0].BuildConfiguration? && cs[0].name == "Debug"
      && cs[1].BuildConfiguration? && cs[1].name == "Release"
      && |ls| == 2
      && forall k :: 0 <= k < 2 ==>
           ls[k].ConfigurationList? && ls[k].defaultName == "Release"
           && |ls[k].configs| == 2 && ls[k].configs[0].id == cs[0].id && ls[k].configs[1].id == cs[1].id
    ensures var ps := ProjectSection(md5).objects;
      |ps| == 1 && ps[0].Project? && ProjectRootRef(md5).id == ps[0].id
  {
  }

  // ------------------------------------------------------------- the script

  /** One file-reference and one build-file id per path. */
  method BuildIdTables(md5: Digest, files: seq<string>)
    returns (fileRefs: map<string, string>, buildFiles: map<string, string>)
    ensures IdTable(md5, fileRefs, files, "fileref_")
    ensures IdTable(md5, buildFiles, files, "buildfile_")
  {
    fileRefs := map[];
    buildFiles := map[];
    for i := 0 to |files|
      invariant IdTable(md5, fileRefs, files[..i], "fileref_")
      invariant IdTable(md5, buildFiles, files[..i], "buildfile_")
    {
      var f := files[i];
      assert files[..i + 1] == files[..i] + [f];
      fileRefs := fileRefs[f := GenerateUuid(md5, "fileref_" + f)];
      buildFiles := buildFiles[f := GenerateUuid(md5, "buildfile_" + f)];
    }
    assert files[..|files|] == files;
  }

  /** The build files of the sources, then of the two
      resources. */
  method BuildFileSectionText(md5: Digest, files: seq<string>,
                              fileRefs: map<string, string>, buildFiles: map<string, string>)
    returns (text: string)
    requires IdTable(md5, fileRefs, files, "fileref_") && IdTable(md5, buildFiles, files, "buildfile_")
    ensures text == SectionText(BuildFileSection(md5, files))
  {
    var head := BeginLine("PBXBuildFile");
    text := head;
    for i := 0 to |files|
      invariant text == head + ObjectsText(SourceBuildFiles(md5, files[..i]))
    {
      var f := files[i];
      assert f in files;
      var entry := BuildFile(buildFiles[f], f, "Sources", Ref(fileRefs[f], f));
      assert entry == SourceBuildFile(md5, f);
      text := text + Render(entry);
      ConcatStep(head, SourceBuildFiles(md5, files[..i]), entry, Render);
      SourceBuildFilesStep(md5, files, i);
    }
    PrefixAll(files);
    text := text + Render(AssetsBuildFile(md5));
    text := text + Render(ConfigBuildFile(md5));
    text := text + EndLine("PBXBuildFile");
    SectionTextSnoc2("PBXBuildFile", SourceBuildFiles(md5, files), AssetsBuildFile(md5), ConfigBuildFile(md5));
  }

  /** The text of a section whose objects end with `x` and `y`. */
  lemma SectionTextSnoc2(name: string, a: seq<PbxObject>, x: PbxObject, y: PbxObject)
    ensures SectionText(Section(name, a + [x, y]))
      == BeginLine(name) + ObjectsText(a) + Render(x) + Render(y) + EndLine(name)
  {
    ConcatStep(BeginLine(name), a, x, Render);
    ConcatStep(BeginLine(name), a + [x], y, Render);
    assert a + [x] + [y] == a + [x, y];
  }

  /** The four fixed file references, then one per source. */
  method FileReferenceSectionText(md5: Digest, files: seq<string>, fileRefs: map<string, string>)
    returns (text: string)
    requires IdTable(md5, fileRefs, files, "fileref_")
    ensures text == SectionText(FileReferenceSection(md5, files))
  {
    var fixed := FixedFileRefs(md5);
    var head := BeginLine("PBXFileReference");
    text := head;
    for i := 0 to |fixed|
      invariant text == head + ObjectsText(fixed[..i])
    {
      text := text + Render(fixed[i]);
      ConcatPrefixStep(head, fixed, i, Render);
    }
    assert fixed[..|fixed|] == fixed + SourceFileRefs(md5, files[..0]);
    for i := 0 to |files|
      invariant text == head + ObjectsText(fixed + SourceFileRefs(md5, files[..i]))
    {
      var f := files[i];
      assert f in files;
      var entry := FileReference(fileRefs[f], f, false, "sourcecode.swift", "\"" + Basename(f) + "\"", "\"<group>\"");
      assert entry == SourceFileRef(md5, f);
      text := text + Render(entry);
      ConcatStep(head, fixed + SourceFileRefs(md5, files[..i]), entry, Render);
      SourceFileRefsStep(md5, files, i);
      SnocAssoc(fixed, SourceFileRefs(md5, files[..i]), entry);
    }
    PrefixAll(files);
    text := text + EndLine("PBXFileReference");
  }

  /** The group's children are appended one
      line per file of the category. */
  method CategoryGroupText(md5: Digest, files: seq<string>, fileRefs: map<string, string>, c: Category)
    returns (text: string)
    requires IdTable(md5, fileRefs, files, "fileref_")
    ensures text == Render(CategoryGroup(md5, files, c))
  {
    var members := CategoryFiles(files, c);
    var head := "\t\t" + CategoryGroupId(md5, c) + (" /* " + c.Name() + " */")
      + " = {\n\t\t\tisa = PBXGroup;\n\t\t\tchildren = (\n";
    text := head;
    for i := 0 to |members|
      invariant text == head + RefLines(GroupChildren(md5, members[..i]))
    {
      var f := members[i];
      assert f in files;
      var child := Ref(fileRefs[f], Basename(f));
      assert child == GroupChild(md5, f);
      text := text + RefLine(child);
      ConcatStep(head, GroupChildren(md5, members[..i]), child, RefLine);
      GroupChildrenStep(md5, members, i);
    }
    PrefixAll(members);
    text := text + "\t\t\t);\n";
    text := text + LabelLine(Path(c.Name()));
    text := text + "\t\t\tsourceTree = \"<group>\";\n\t\t};\n";
    CategoryGroupParts(md5, files, c);
  }

  lemma CategoryGroupParts(md5: Digest, files: seq<string>, c: Category)
    ensures Render(CategoryGroup(md5, files, c))
      == "\t\t" + CategoryGroupId(md5, c) + (" /* " + c.Name() + " */")
         + " = {\n\t\t\tisa = PBXGroup;\n\t\t\tchildren = (\n"
         + RefLines(GroupChildren(md5, CategoryFiles(files, c))) + "\t\t\t);\n"
         + LabelLine(Path(c.Name())) + "\t\t\tsourceTree = \"<group>\";\n\t\t};\n"
  {
  }

  /** The main group, the products group and the six
      category groups. */
  method GroupSectionText(md5: Digest, files: seq<string>, fileRefs: map<string, string>)
    returns (text: string)
    requires IdTable(md5, fileRefs, files, "fileref_")
    requires AppEntry in files
    ensures text == SectionText(GroupSection(md5, files, FileRefId(md5, AppEntry)))
  {
    var fixed := [MainGroup(md5, fileRefs[AppEntry]), ProductsGroup(md5)];
    var head := BeginLine("PBXGroup");
    text := head;
    for i := 0 to |fixed|
      invariant text == head + ObjectsText(fixed[..i])
    {
      text := text + Render(fixed[i]);
      ConcatPrefixStep(head, fixed, i, Render);
    }
    assert fixed[..|fixed|] == fixed + CategoryGroups(md5, files, 0);
    for k := 0 to |Categories|
      invariant text == head + ObjectsText(fixed + CategoryGroups(md5, files, k))
    {
      var group := CategoryGroupText(md5, files, fileRefs, Categories[k]);
      text := text + group;
      ConcatStep(head, fixed + CategoryGroups(md5, files, k), CategoryGroup(md5, files, Categories[k]), Render);
      SnocAssoc(fixed, CategoryGroups(md5, files, k), CategoryGroup(md5, files, Categories[k]));
    }
    text := text + EndLine("PBXGroup");
  }

  /** One entry per source build file, in order. */
  method SourcesSectionText(md5: Digest, files: seq<string>, buildFiles: map<string, string>)
    returns (text: string)
    requires IdTable(md5, buildFiles, files, "buildfile_")
    ensures text == SectionText(SourcesSection(md5, files))
  {
    var head := "\t\t" + SourcesPhaseId(md5) + " /* " + "Sources" + " */ = {\n\t\t\tisa = PBX" + "Sources"
      + "BuildPhase;\n" + "\t\t\tbuildActionMask = 2147483647;\n\t\t\tfiles = (\n";
    var phase := head;
    for i := 0 to |files|
      invariant phase == head + RefLines(SourceEntries(md5, files[..i]))
    {
      var f := files[i];
      assert f in files;
      var entry := Ref(buildFiles[f], f + " in Sources");
      assert entry == SourceEntry(md5, f);
      phase := phase + RefLine(entry);
      ConcatStep(head, SourceEntries(md5, files[..i]), entry, RefLine);
      SourceEntriesStep(md5, files, i);
    }
    PrefixAll(files);
    phase := phase + "\t\t\t);\n\t\t\trunOnlyForDeploymentPostprocessing = 0;\n\t\t};\n";
    assert phase == Render(SourcesPhase(md5, files));
    ConcatSingle(SourcesPhase(md5, files), Render);
    text := BeginLine("PBXSourcesBuildPhase") + phase + EndLine("PBXSourcesBuildPhase");
  }

  /** A section whose objects do not depend on the discovered files. */
  method FixedSectionText(s: Section) returns (text: string)
    ensures text == SectionText(s)
  {
    var head := BeginLine(s.name);
    text := head;
    for i := 0 to |s.objects|
      invariant text == head + ObjectsText(s.objects[..i])
    {
      text := text + Render(s.objects[i]);
      ConcatPrefixStep(head, s.objects, i, Render);
    }
    PrefixAll(s.objects);
    text := text + EndLine(s.name);
  }

  /** Ten texts printed one after the other, each the text of its section,
      give the text of the ten sections. */
  lemma {:induction false} AssembleSections(head: string,
      s0: Section, s1: Section, s2: Section, s3: Section, s4: Section,
      s5: Section, s6: Section, s7: Section, s8: Section, s9: Section,
      t0: string, t1: string, t2: string, t3: string, t4: string,
      t5: string, t6: string, t7: string, t8: string, t9: string)
    requires t0 == SectionText(s0) && t1 == SectionText(s1) && t2 == SectionText(s2)
    requires t3 == SectionText(s3) && t4 == SectionText(s4) && t5 == SectionText(s5)
    requires t6 == SectionText(s6) && t7 == SectionText(s7) && t8 == SectionText(s8)
    requires t9 == SectionText(s9)
    ensures head + t0 + t1 + t2 + t3 + t4 + t5 + t6 + t7 + t8 + t9
      == head + SectionsText([s0, s1, s2, s3, s4, s5, s6, s7, s8, s9])
  {
    var secs := [s0, s1, s2, s3, s4, s5, s6, s7, s8, s9];
    assert head == head + SectionsText(secs[..0]);
    ConcatPrefixStep(head, secs, 0, SectionText);
    ConcatPrefixStep(head, secs, 1, SectionText);
    ConcatPrefixStep(head, secs, 2, SectionText);
    ConcatPrefixStep(head, secs, 3, SectionText);
    ConcatPrefixStep(head, secs, 4, SectionText);
    ConcatPrefixStep(head, secs, 5, SectionText);
    ConcatPrefixStep(head, secs, 6, SectionText);
    ConcatPrefixStep(head, secs, 7, SectionText);
    ConcatPrefixStep(head, secs, 8, SectionText);
    ConcatPrefixStep(head, secs, 9, SectionText);
    PrefixAll(secs);
  }

  /** The generator: the text it writes to `project.pbxproj` for the paths
      the walk found, or the lookup failure of the main group. The walk
      yields each path once. */
  method Generate(md5: Digest, found: seq<string>, debugSettings: string, releaseSettings: string)
    returns (r: Result<string, GenError>)
    requires Distinct(found)
    ensures r == SerializeResult(Describe(md5, found, debugSettings, releaseSettings))
  {
    var files := SwiftFiles(found);
    var fileRefs, buildFiles := BuildIdTables(md5, files);
    var content := Header;
    var t0 := BuildFileSectionText(md5, files, fileRefs, buildFiles);
    content := content + t0;
    var t1 := FileReferenceSectionText(md5, files, fileRefs);
    content := content + t1;
    var t2 := FixedSectionText(FrameworksSection(md5));
    content := content + t2;
    if AppEntry !in fileRefs {
      // the main group's lookup of the app entry raises: nothing is written
      return Err(MissingAppEntry);
    }
    var t3 := GroupSectionText(md5, files, fileRefs);
    content := content + t3;
    var t4 := FixedSectionText(TargetSection(md5));
    content := content + t4;
    var t5 := FixedSectionText(ProjectSection(md5));
    content := content + t5;
    var t6 := FixedSectionText(ResourcesSection(md5));
    content := content + t6;
    var t7 := SourcesSectionText(md5, files, buildFiles);
    content := content + t7;
    var t8 := FixedSectionText(ConfigurationSection(md5, debugSettings, releaseSettings));
    content := content + t8;
    var t9 := FixedSectionText(ConfigListSection(md5));
    content := content + t9;
    AssembleSections(Header,
      BuildFileSection(md5, files), FileReferenceSection(md5, files), FrameworksSection(md5),
      GroupSection(md5, files, FileRefId(md5, AppEntry)), TargetSection(md5), ProjectSection(md5),
      ResourcesSection(md5), SourcesSection(md5, files),
      ConfigurationSection(md5, debugSettings, releaseSettings), ConfigListSection(md5),
      t0, t1, t2, t3, t4, t5, t6, t7, t8, t9);
    content := content + Footer(ProjectRootRef(md5));
    return Ok(content);
  }
}
