/**
  Asset loading (AssetManager.cpp): dispatch on the file extension, image
  loading that yields no texture when decoding fails, the per-material diffuse
  textures, and the splitting of each OBJ shape into models at the face
  boundaries where the material changes, with the vertices of every model
  deduplicated on their own.

  What the OBJ parser and the image decoder produce is a parameter: a shape
  is the vertex read for each of its indices (vertices are opaque values
  compared with `==`) and the material id of each face; an image either
  decodes or does not, and the texture manager hands back a handle.
 */
module AssetManager {
  import opened Vk
  import opened VertexDedup

  const OBJ_EXTENSION: string := ".obj"
  const UNSUPPORTED_FORMAT: string := "Asset file format not supported!"
  const CHECKER_PATH: string := "assets/checker.png"

  // ---------------------------------------------------------------------------
  // Dispatch on the extension

  /** The position of the last `c` in `s`, if any. */
  function LastIndexOf(s: string, c: char): (r: Option<nat>)
    ensures r.Some? ==> r.value < |s| && s[r.value] == c && c !in s[r.value + 1..]
    ensures r.None? ==> c !in s
  {
    if s == [] then None
    else if s[|s| - 1] == c then Some(|s| - 1)
    else
      var r := LastIndexOf(s[..|s| - 1], c);
      assert s[..|s| - 1] + [s[|s| - 1]] == s;
      r
  }

  /** The last component of a path (`std::filesystem::path::filename`), with
      `/` as the only separator. */
  function FileName(path: string): (name: string)
    ensures '/' !in name
    ensures |name| <= |path| && name == path[|path| - |name|..]
  {
    match LastIndexOf(path, '/')
    case None => path
    case Some(k) => path[k + 1..]
  }

  /** `std::filesystem::path::parent_path`, with `/` as the only separator:
      everything before the last `/`, the root `/` itself when that is the
      only one, and empty for a bare file name. */
  function ParentPath(path: string): (dir: string)
    ensures '/' !in path ==> dir == ""
    ensures '/' in path ==> path == dir + "/" + FileName(path) || (dir == "/" && path == dir + FileName(path))
  {
    match LastIndexOf(path, '/')
    case None => ""
    case Some(k) =>
      assert path == path[..k] + "/" + path[k + 1..];
      if k == 0 then "/" else path[..k]
  }

  /** `std::filesystem::path::append` of a relative or absolute name: an
      absolute name replaces the directory; otherwise a separator is added
      only when the directory is non-empty and does not already end in one. */
  function JoinPath(dir: string, name: string): (path: string)
    ensures |name| > 0 && name[0] == '/' ==> path == name
    ensures (|name| == 0 || name[0] != '/') && dir != "" && dir[|dir| - 1] != '/' ==> path == dir + "/" + name
    ensures (|name| == 0 || name[0] != '/') && (dir == "" || dir[|dir| - 1] == '/') ==> path == dir + name
  {
    if |name| > 0 && name[0] == '/' then name
    else if dir == "" || dir[|dir| - 1] == '/' then dir + name
    else dir + "/" + name
  }

  /** Appending a path's file name to its parent directory gives the path
      back, unless the last separator is doubled. */
  lemma JoinParentFileName(path: string)
    requires forall k :: 0 < k < |path| && path[k] == '/' ==> path[k - 1] != '/'
    ensures JoinPath(ParentPath(path), FileName(path)) == path
  {
    match LastIndexOf(path, '/')
    case None =>
    case Some(k) =>
      var name := path[k + 1..];
      assert '/' !in name;
      assert path == path[..k] + "/" + name;
      if k > 0 {
        assert path[k - 1] != '/';
      }
  }

  /** `std::filesystem::path::extension`: the file name from its last dot on;
      empty when there is no dot, when the only dot starts the name, and for
      `.` and `..`. */
  function Extension(path: string): string {
    var name := FileName(path);
    if name == "." || name == ".." then ""
    else match LastIndexOf(name, '.')
      case None => ""
      case Some(k) => if k == 0 then "" else name[k..]
  }

  /** A path is dispatched to the OBJ loader exactly when its file name ends
      in `.obj` with something before the dot. */
  lemma ObjExtensionExactly(path: string)
    ensures Extension(path) == OBJ_EXTENSION <==>
      |FileName(path)| > 4 && FileName(path)[|FileName(path)| - 4..] == OBJ_EXTENSION
  {
    if Extension(path) == OBJ_EXTENSION {
      ObjExtensionIsSuffix(path);
    }
    if |FileName(path)| > 4 && FileName(path)[|FileName(path)| - 4..] == OBJ_EXTENSION {
      ObjSuffixIsExtension(path);
    }
  }

  lemma ObjExtensionIsSuffix(path: string)
    requires Extension(path) == OBJ_EXTENSION
    ensures |FileName(path)| > 4 && FileName(path)[|FileName(path)| - 4..] == OBJ_EXTENSION
  {
    var name := FileName(path);
    var k := LastIndexOf(name, '.').value;
    assert name[k..] == OBJ_EXTENSION;
    assert k == |name| - 4;
  }

  lemma ObjSuffixIsExtension(path: string)
    requires |FileName(path)| > 4 && FileName(path)[|FileName(path)| - 4..] == OBJ_EXTENSION
    ensures Extension(path) == OBJ_EXTENSION
  {
    var name := FileName(path);
    var k := |name| - 4;
    assert name[k] == '.' && name[k + 1..] == "obj";
    IsLastIndex(name, '.', k);
  }

  lemma IsLastIndex(s: string, c: char, k: nat)
    requires k < |s| && s[k] == c && c !in s[k + 1..]
    ensures LastIndexOf(s, c) == Some(k)
  {
  }

  // ---------------------------------------------------------------------------
  // Textures

  datatype Image = Image(width: nat, height: nat)

  datatype Material = Material(diffuseTexname: string)

  /** The texture for an image file: none when the decoder fails, otherwise
      the texture the texture manager creates from the pixels. */
  function LoadImageFile(decoded: Option<Image>, created: Handle): (texture: Option<Handle>)
    ensures texture.None? <==> decoded.None?
    ensures texture.Some? ==> texture.value == created
  {
    if decoded.None? then None else Some(created)
  }

  /** The diffuse texture of each material: loaded (from the file the decoder
      answers `decoded[i]` for) only when the material names one, and none
      otherwise. */
  function DiffuseTextures(materials: seq<Material>, decoded: seq<Option<Image>>, created: seq<Handle>): (textures: seq<Option<Handle>>)
    requires |decoded| == |created| == |materials|
    ensures |textures| == |materials|
    ensures forall i :: 0 <= i < |materials| ==>
      (textures[i].Some? <==> materials[i].diffuseTexname != "" && decoded[i].Some?)
    ensures forall i :: 0 <= i < |materials| && textures[i].Some? ==> textures[i].value == created[i]
  {
    seq(|materials|, i requires 0 <= i < |materials| =>
      if materials[i].diffuseTexname != "" then LoadImageFile(decoded[i], created[i]) else None)
  }

  /** The texture files requested for the materials, in order: each name is
      appended to the OBJ file's directory. */
  function RequestedTextures(dir: string, materials: seq<Material>): (paths: seq<string>)
    ensures |paths| <= |materials|
    ensures forall x :: x in paths <==>
      exists i :: 0 <= i < |materials| && materials[i].diffuseTexname != "" && x == JoinPath(dir, materials[i].diffuseTexname)
  {
    if materials == [] then []
    else
      var front := materials[..|materials| - 1];
      var last := materials[|materials| - 1];
      assert forall i :: 0 <= i < |front| ==> materials[i] == front[i];
      RequestedTextures(dir, front) + (if last.diffuseTexname != "" then [JoinPath(dir, last.diffuseTexname)] else [])
  }

  /** The loop that loads a diffuse texture for each material that names one. */
  method LoadDiffuseTextures(dir: string, materials: seq<Material>, decoded: seq<Option<Image>>, created: seq<Handle>)
    returns (textures: seq<Option<Handle>>, requested: seq<string>)
    requires |decoded| == |created| == |materials|
    ensures textures == DiffuseTextures(materials, decoded, created)
    ensures requested == RequestedTextures(dir, materials)
  {
    textures := seq(|materials|, _ => None);
    requested := [];
    for i := 0 to |materials|
      invariant |textures| == |materials|
      invariant textures[..i] == DiffuseTextures(materials, decoded, created)[..i]
      invariant forall t :: i <= t < |materials| ==> textures[t].None?
      invariant requested == RequestedTextures(dir, materials[..i])
    {
      assert materials[..i + 1][..i] == materials[..i];
      if materials[i].diffuseTexname != "" {
        requested := requested + [JoinPath(dir, materials[i].diffuseTexname)];
        textures := textures[i := LoadImageFile(decoded[i], created[i])];
      }
    }
    assert materials[..|materials|] == materials;
  }

  // ---------------------------------------------------------------------------
  // Splitting a shape into models

  /** A shape as the parser hands it back: the vertex read for each index, and
      one material id (-1 for none) per face of three indices. */
  datatype Shape<V> = Shape(name: string, vertices: seq<V>, materialIds: seq<int>)

  /** A model the loader emits: its name, its deduplicated mesh, and its
      texture (none when the texture failed to load). */
  datatype ModelDesc<V> = ModelDesc(name: string, mesh: Buffers<V>, texture: Option<Handle>)

  /** Material ids are -1 or index the material list. */
  predicate ValidMaterialIds(ids: seq<int>, materialCount: nat) {
    forall f :: 0 <= f < |ids| ==> -1 <= ids[f] < materialCount
  }

  /** After reading `j` indices, a model is emitted: `j` closes a face, and the
      next face is past the material list or has a different material from
      the face just closed. */
  predicate Cut(ids: seq<int>, j: nat)
    requires |ids| > 0
  {
    j > 0 && j % 3 == 0 && (j / 3 >= |ids| || ids[j / 3] != ids[j / 3 - 1])
  }

  /** The material of the face just closed at `j`, or of the last face when
      the faces run past the material list. */
  function MaterialAt(ids: seq<int>, j: nat): int
    requires |ids| > 0 && j > 0
  {
    var f := (j - 1) / 3;
    if f < |ids| then ids[f] else ids[|ids| - 1]
  }

  /** The texture an emitted model gets: the diffuse texture of its material
      when it has one that names a texture file, else the checker texture. */
  function TextureFor(materials: seq<Material>, diffuse: seq<Option<Handle>>, checker: Option<Handle>, id: int): Option<Handle>
    requires |diffuse| == |materials| && -1 <= id < |materials|
  {
    if id != -1 && materials[id].diffuseTexname != "" then diffuse[id] else checker
  }

  /** The index count at which the model being collected after `j` indices
      started: the last cut at or before `j`, or 0. */
  function LastCut(ids: seq<int>, j: nat): (c: nat)
    requires |ids| > 0
    ensures c <= j
    ensures c == 0 || Cut(ids, c)
    ensures forall t :: c < t <= j ==> !Cut(ids, t)
  {
    if j == 0 then 0 else if Cut(ids, j) then j else LastCut(ids, j - 1)
  }

  /** The cuts up to `j`, in increasing order; the last of them is `LastCut`. */
  function CutsUpTo(ids: seq<int>, j: nat): (cuts: seq<nat>)
    requires |ids| > 0
    ensures CutPositions(cuts, j)
    ensures LastCut(ids, j) == if cuts == [] then 0 else cuts[|cuts| - 1]
  {
    if j == 0 then []
    else
      var prev := CutsUpTo(ids, j - 1);
      CutPositionsGrow(prev, j - 1);
      if Cut(ids, j) then prev + [j] else prev
  }

  /** The cuts up to `j` are exactly the positions in `1..j` where a model is
      emitted. */
  lemma {:induction false} CutsUpToMembers(ids: seq<int>, j: nat)
    requires |ids| > 0
    ensures forall t :: t in CutsUpTo(ids, j) <==> 0 < t <= j && Cut(ids, t)
  {
    if j > 0 {
      CutsUpToMembers(ids, j - 1);
    }
  }

  /** Cut positions within `1..n` stay cut positions within `1..n + 1`, also
      with `n + 1` appended. */
  lemma CutPositionsGrow(cuts: seq<nat>, n: nat)
    requires CutPositions(cuts, n)
    ensures CutPositions(cuts, n + 1) && CutPositions(cuts + [n + 1], n + 1)
  {
    var cuts' := cuts + [n + 1];
    assert forall k :: 0 <= k < |cuts| ==> cuts'[k] == cuts[k];
  }

  /** `cuts` are increasing positions in `1..n`. */
  predicate CutPositions(cuts: seq<nat>, n: nat) {
    && (forall k :: 0 <= k < |cuts| ==> 0 < cuts[k] <= n)
    && (forall a, b :: 0 <= a < b < |cuts| ==> cuts[a] < cuts[b])
  }

  /** Where the segment ending at cut number `k` starts. */
  function SegmentStart(cuts: seq<nat>, k: nat): nat
    requires k < |cuts|
  {
    if k == 0 then 0 else cuts[k - 1]
  }

  /** The model emitted at cut `j` for the indices read since `start`. */
  function ModelAt<V(==)>(shape: Shape<V>, materials: seq<Material>, diffuse: seq<Option<Handle>>, checker: Option<Handle>,
                          start: nat, j: nat): ModelDesc<V>
    requires |shape.materialIds| > 0 && ValidMaterialIds(shape.materialIds, |materials|) && |diffuse| == |materials|
    requires start < j <= |shape.vertices|
  {
    ModelDesc(shape.name, Dedup(shape.vertices[start..j]), TextureFor(materials, diffuse, checker, MaterialAt(shape.materialIds, j)))
  }

  /** The models emitted for a shape after reading its first `j` indices. */
  function ShapeModels<V(==)>(shape: Shape<V>, materials: seq<Material>, diffuse: seq<Option<Handle>>, checker: Option<Handle>,
                              j: nat): seq<ModelDesc<V>>
    requires |shape.materialIds| > 0 && ValidMaterialIds(shape.materialIds, |materials|) && |diffuse| == |materials|
    requires j <= |shape.vertices|
  {
    if j == 0 then []
    else
      ShapeModels(shape, materials, diffuse, checker, j - 1) +
      if Cut(shape.materialIds, j) then [ModelAt(shape, materials, diffuse, checker, LastCut(shape.materialIds, j - 1), j)] else []
  }

  /** Model `k` for the cuts `cuts` holds the indices read between cut `k - 1`
      (or the start) and cut `k`. */
  ghost predicate ModelsAtCuts<V(!new)>(shape: Shape<V>, materials: seq<Material>, diffuse: seq<Option<Handle>>,
                                        checker: Option<Handle>, models: seq<ModelDesc<V>>, cuts: seq<nat>)
    requires |shape.materialIds| > 0 && ValidMaterialIds(shape.materialIds, |materials|) && |diffuse| == |materials|
    requires CutPositions(cuts, |shape.vertices|)
  {
    && |models| == |cuts|
    && forall k {:trigger models[k]} :: 0 <= k < |cuts| ==>
         models[k] == ModelAt(shape, materials, diffuse, checker, SegmentStart(cuts, k), cuts[k])
  }

  /** Emitting the model for a new cut `j` after the last cut extends the
      line-up by one. */
  lemma AppendModelAtCut<V(!new)>(shape: Shape<V>, materials: seq<Material>, diffuse: seq<Option<Handle>>,
                                  checker: Option<Handle>, models: seq<ModelDesc<V>>, cuts: seq<nat>, j: nat)
    requires |shape.materialIds| > 0 && ValidMaterialIds(shape.materialIds, |materials|) && |diffuse| == |materials|
    requires 0 < j <= |shape.vertices| && CutPositions(cuts, j - 1)
    requires ModelsAtCuts(shape, materials, diffuse, checker, models, cuts)
    ensures CutPositions(cuts + [j], |shape.vertices|)
    ensures ModelsAtCuts(shape, materials, diffuse, checker,
                         models + [ModelAt(shape, materials, diffuse, checker, if cuts == [] then 0 else cuts[|cuts| - 1], j)],
                         cuts + [j])
  {
    var cuts' := cuts + [j];
    var models' := models + [ModelAt(shape, materials, diffuse, checker, if cuts == [] then 0 else cuts[|cuts| - 1], j)];
    forall k | 0 <= k < |cuts'|
      ensures models'[k] == ModelAt(shape, materials, diffuse, checker, SegmentStart(cuts', k), cuts'[k])
    {
      if k < |cuts| {
        assert cuts'[k] == cuts[k] && SegmentStart(cuts', k) == SegmentStart(cuts, k);
      }
    }
  }

  /** The models emitted for a shape line up with its cuts: model `k` holds the
      indices read between cut `k - 1` (or the start) and cut `k`. */
  lemma {:induction false} ShapeModelsAtCuts<V(!new)>(shape: Shape<V>, materials: seq<Material>, diffuse: seq<Option<Handle>>,
                                                      checker: Option<Handle>, j: nat)
    requires |shape.materialIds| > 0 && ValidMaterialIds(shape.materialIds, |materials|) && |diffuse| == |materials|
    requires j <= |shape.vertices|
    ensures ModelsAtCuts(shape, materials, diffuse, checker, ShapeModels(shape, materials, diffuse, checker, j),
                         CutsUpTo(shape.materialIds, j))
  {
    if j > 0 {
      ShapeModelsAtCuts(shape, materials, diffuse, checker, j - 1);
      var ids := shape.materialIds;
      if Cut(ids, j) {
        AppendModelAtCut(shape, materials, diffuse, checker, ShapeModels(shape, materials, diffuse, checker, j - 1),
                         CutsUpTo(ids, j - 1), j);
      }
    }
  }

  /** Every emitted mesh describes exactly the indices it was built from: its
      vertices are unique, and each index refers into its own vertex list to a
      vertex equal to the one read. */
  lemma ModelMeshesDescribeSegments<V(!new)>(shape: Shape<V>, materials: seq<Material>, diffuse: seq<Option<Handle>>,
                                             checker: Option<Handle>)
    requires |shape.materialIds| > 0 && ValidMaterialIds(shape.materialIds, |materials|) && |diffuse| == |materials|
    ensures var models := ShapeModels(shape, materials, diffuse, checker, |shape.vertices|);
      var cuts := CutsUpTo(shape.materialIds, |shape.vertices|);
      && |models| == |cuts|
      && forall k :: 0 <= k < |cuts| ==>
        Describes(models[k].mesh, shape.vertices[SegmentStart(cuts, k)..cuts[k]])
  {
    var cuts := CutsUpTo(shape.materialIds, |shape.vertices|);
    ShapeModelsAtCuts(shape, materials, diffuse, checker, |shape.vertices|);
    forall k | 0 <= k < |cuts|
      ensures Describes(Dedup(shape.vertices[SegmentStart(cuts, k)..cuts[k]]), shape.vertices[SegmentStart(cuts, k)..cuts[k]])
    {
      DedupDescribes(shape.vertices[SegmentStart(cuts, k)..cuts[k]]);
    }
  }

  /** Between two consecutive cuts every face listed has one material, the one
      the emitted model takes its texture from. */
  lemma SegmentHasOneMaterial(ids: seq<int>, start: nat, j: nat)
    requires |ids| > 0 && Cut(ids, j) && start < j && (start == 0 || Cut(ids, start))
    requires forall t :: start < t < j ==> !Cut(ids, t)
    ensures forall f :: start / 3 <= f < j / 3 && f < |ids| ==> ids[f] == MaterialAt(ids, j)
  {
    forall f | start / 3 <= f < j / 3 && f < |ids|
      ensures ids[f] == MaterialAt(ids, j)
    {
      SameMaterialUpTo(ids, start, f, j);
    }
  }

  lemma {:induction false} SameMaterialUpTo(ids: seq<int>, start: nat, f: nat, j: nat)
    requires |ids| > 0 && j > 0 && j % 3 == 0 && start % 3 == 0
    requires start / 3 <= f < j / 3 && f < |ids|
    requires forall t :: start < t < j ==> !Cut(ids, t)
    ensures ids[f] == MaterialAt(ids, j)
    decreases j / 3 - f
  {
    if f + 1 < j / 3 && f + 1 < |ids| {
      SameMaterialUpTo(ids, start, f + 1, j);
      assert !Cut(ids, 3 * (f + 1));
    }
  }

  /** Consecutive models within the material list have different materials:
      a model ends only where the material changes. */
  lemma CutChangesMaterial(ids: seq<int>, j: nat)
    requires |ids| > 0 && Cut(ids, j) && j / 3 < |ids|
    ensures MaterialAt(ids, j) != MaterialAt(ids, j + 3)
  {
  }

  /** For a well-formed shape (three indices per material id), the last cut
      is the end of the shape, so every index read ends up in some model. */
  lemma WellFormedShapeIsCovered(ids: seq<int>, n: nat)
    requires |ids| > 0 && n == 3 * |ids|
    ensures Cut(ids, n) && LastCut(ids, n) == n
  {
  }

  /** The material id the loader holds after reading `j` indices: that of
      the face being read, or of the last face past the material list. */
  function CurrentMaterial(ids: seq<int>, j: nat): int
    requires |ids| > 0
  {
    var f := j / 3;
    if f < |ids| then ids[f] else ids[|ids| - 1]
  }

  /** The loader's test after `j` indices, with `materialId` the id held
      after `j - 1`, is the cut test; the id it then holds is the current one. */
  lemma MaterialStep(ids: seq<int>, j: nat, materialId: int)
    requires |ids| > 0 && j > 0 && materialId == CurrentMaterial(ids, j - 1)
    ensures Cut(ids, j) <==> j % 3 == 0 && (j / 3 >= |ids| || ids[j / 3] != materialId)
    ensures Cut(ids, j) ==> MaterialAt(ids, j) == materialId
    ensures CurrentMaterial(ids, j) == if j % 3 == 0 && j / 3 < |ids| then ids[j / 3] else materialId
  {
    if j % 3 == 0 {
      assert (j - 1) / 3 == j / 3 - 1;
    } else {
      assert (j - 1) / 3 == j / 3;
    }
  }

  /** The models after `j` indices: those after `j - 1`, plus, at a cut, the
      mesh collected since the previous cut with the held material's texture. */
  lemma EmitStep<V>(shape: Shape<V>, materials: seq<Material>, diffuse: seq<Option<Handle>>, checker: Option<Handle>,
                    j: nat, models: seq<ModelDesc<V>>, mesh: Buffers<V>, materialId: int)
    requires |shape.materialIds| > 0 && ValidMaterialIds(shape.materialIds, |materials|) && |diffuse| == |materials|
    requires 0 < j <= |shape.vertices|
    requires models == ShapeModels(shape, materials, diffuse, checker, j - 1)
    requires mesh == Dedup(shape.vertices[LastCut(shape.materialIds, j - 1)..j])
    requires Cut(shape.materialIds, j) ==> materialId == MaterialAt(shape.materialIds, j)
    ensures Cut(shape.materialIds, j) ==> -1 <= materialId < |materials|
    ensures ShapeModels(shape, materials, diffuse, checker, j) ==
      if Cut(shape.materialIds, j) then models + [ModelDesc(shape.name, mesh, TextureFor(materials, diffuse, checker, materialId))]
      else models
  {
  }

  /** Reading the vertex at `j` extends the mesh built from `vertices[start..j]`. */
  lemma DedupSliceStep<V>(vertices: seq<V>, start: nat, j: nat)
    requires start <= j < |vertices|
    ensures Dedup(vertices[start..j + 1]) == Step(Dedup(vertices[start..j]), vertices[j])
  {
    assert vertices[start..j + 1][..j - start] == vertices[start..j];
  }

  /** `LoadObjFile`'s loop over the indices of one shape. The dedup map and
      the mesh under construction are cleared after each emitted model;
      whatever was read after the last model is dropped. */
  method LoadShape<V(==,!new)>(shape: Shape<V>, materials: seq<Material>, diffuse: seq<Option<Handle>>, checker: Option<Handle>)
    returns (models: seq<ModelDesc<V>>)
    requires |shape.materialIds| > 0 && ValidMaterialIds(shape.materialIds, |materials|) && |diffuse| == |materials|
    ensures models == ShapeModels(shape, materials, diffuse, checker, |shape.vertices|)
  {
    var ids := shape.materialIds;
    var vertices := shape.vertices;
    var lookup: map<V, nat> := map[];
    var mesh: Buffers<V> := Buffers([], []);
    var j := 0;
    var lastMaterialId := ids[0];
    models := [];
    while j < |vertices|
      invariant j <= |vertices|
      invariant models == ShapeModels(shape, materials, diffuse, checker, j)
      invariant mesh == Dedup(vertices[LastCut(ids, j)..j])
      invariant Distinct(mesh.vertices) && LookupMatches(lookup, mesh.vertices)
      invariant lastMaterialId == CurrentMaterial(ids, j)
    {
      DedupSliceStep(vertices, LastCut(ids, j), j);
      lookup, mesh := AddVertex(lookup, mesh, vertices[j]);
      j := j + 1;
      models, lookup, mesh, lastMaterialId := CloseFace(shape, materials, diffuse, checker, j, models, lookup, mesh, lastMaterialId);
    }
  }

  /** The test `LoadObjFile` makes after each index: when a face closes and
      the next face is missing or has another material, the mesh collected so
      far is emitted as a model and the map and mesh are cleared. */
  method CloseFace<V(==,!new)>(shape: Shape<V>, materials: seq<Material>, diffuse: seq<Option<Handle>>, checker: Option<Handle>,
                               j: nat, models: seq<ModelDesc<V>>, lookup: map<V, nat>, mesh: Buffers<V>, lastMaterialId: int)
    returns (models': seq<ModelDesc<V>>, lookup': map<V, nat>, mesh': Buffers<V>, lastMaterialId': int)
    requires |shape.materialIds| > 0 && ValidMaterialIds(shape.materialIds, |materials|) && |diffuse| == |materials|
    requires 0 < j <= |shape.vertices|
    requires models == ShapeModels(shape, materials, diffuse, checker, j - 1)
    requires mesh == Dedup(shape.vertices[LastCut(shape.materialIds, j - 1)..j])
    requires Distinct(mesh.vertices) && LookupMatches(lookup, mesh.vertices)
    requires lastMaterialId == CurrentMaterial(shape.materialIds, j - 1)
    ensures models' == ShapeModels(shape, materials, diffuse, checker, j)
    ensures mesh' == Dedup(shape.vertices[LastCut(shape.materialIds, j)..j])
    ensures Distinct(mesh'.vertices) && LookupMatches(lookup', mesh'.vertices)
    ensures lastMaterialId' == CurrentMaterial(shape.materialIds, j)
  {
    var ids := shape.materialIds;
    MaterialStep(ids, j, lastMaterialId);
    EmitStep(shape, materials, diffuse, checker, j, models, mesh, lastMaterialId);
    models', lookup', mesh', lastMaterialId' := models, lookup, mesh, lastMaterialId;
    if j % 3 == 0 {
      var faceId := j / 3;
      if faceId >= |ids| || ids[faceId] != lastMaterialId {
        models' := models + [ModelDesc(shape.name, mesh, TextureFor(materials, diffuse, checker, lastMaterialId))];
        if faceId < |ids| {
          lastMaterialId' := ids[faceId];
        }
        lookup' := map[];
        mesh' := Buffers([], []);
        assert shape.vertices[j..j] == [];
      }
    }
  }

  // ---------------------------------------------------------------------------
  // Loading files

  /** What the OBJ parser hands back for a file. */
  datatype ObjFile<V> = ObjFile(parsed: bool, warn: string, err: string, shapes: seq<Shape<V>>, materials: seq<Material>)

  predicate WellFormedObj<V>(file: ObjFile<V>) {
    forall i :: 0 <= i < |file.shapes| ==>
      |file.shapes[i].materialIds| > 0 && ValidMaterialIds(file.shapes[i].materialIds, |file.materials|)
  }

  /** The models of all shapes, shape after shape. */
  function ObjModels<V(==)>(shapes: seq<Shape<V>>, materials: seq<Material>, diffuse: seq<Option<Handle>>, checker: Option<Handle>)
    : seq<ModelDesc<V>>
    requires |diffuse| == |materials|
    requires forall i :: 0 <= i < |shapes| ==> |shapes[i].materialIds| > 0 && ValidMaterialIds(shapes[i].materialIds, |materials|)
  {
    if shapes == [] then []
    else
      var n := |shapes| - 1;
      ObjModels(shapes[..n], materials, diffuse, checker) +
      ShapeModels(shapes[n], materials, diffuse, checker, |shapes[n].vertices|)
  }

  /** `LoadObjFile`: the checker texture, the diffuse textures, then the
      models of every shape. A parse failure is only reported; the loader
      goes on with what it got. */
  method LoadObjFile<V(==,!new)>(path: string, file: ObjFile<V>, checkerImage: Option<Image>, checkerTexture: Handle,
                                 decoded: seq<Option<Image>>, created: seq<Handle>)
    returns (models: seq<ModelDesc<V>>, requested: seq<string>, warnings: seq<string>)
    requires WellFormedObj(file)
    requires |decoded| == |created| == |file.materials|
    ensures var diffuse := DiffuseTextures(file.materials, decoded, created);
      models == ObjModels(file.shapes, file.materials, diffuse, LoadImageFile(checkerImage, checkerTexture))
    ensures requested == [CHECKER_PATH] + RequestedTextures(ParentPath(path), file.materials)
    ensures (!file.parsed || file.warn != "") <==> warnings != []
  {
    warnings := [];
    if !file.parsed {
      warnings := warnings + [file.warn + file.err, "Failed to load obj file " + path];
    }
    var checker := LoadImageFile(checkerImage, checkerTexture);
    var diffuse, names := LoadDiffuseTextures(ParentPath(path), file.materials, decoded, created);
    requested := [CHECKER_PATH] + names;
    if file.warn != "" {
      warnings := warnings + ["Warning during load obj file " + path + file.warn];
    }
    models := [];
    for i := 0 to |file.shapes|
      invariant models == ObjModels(file.shapes[..i], file.materials, diffuse, checker)
    {
      var shapeModels := LoadShape(file.shapes[i], file.materials, diffuse, checker);
      assert file.shapes[..i + 1][..i] == file.shapes[..i];
      models := models + shapeModels;
    }
    assert file.shapes[..|file.shapes|] == file.shapes;
  }

  /** `Load`: only `.obj` files are loaded; anything else is reported and
      ignored. */
  method Load<V(==,!new)>(path: string, file: ObjFile<V>, checkerImage: Option<Image>, checkerTexture: Handle,
                          decoded: seq<Option<Image>>, created: seq<Handle>)
    returns (models: Option<seq<ModelDesc<V>>>, warnings: seq<string>)
    requires WellFormedObj(file)
    requires |decoded| == |created| == |file.materials|
    ensures models.Some? <==> Extension(path) == OBJ_EXTENSION
    ensures models.None? ==> warnings == [UNSUPPORTED_FORMAT]
    ensures models.Some? ==>
      models.value == ObjModels(file.shapes, file.materials, DiffuseTextures(file.materials, decoded, created), LoadImageFile(checkerImage, checkerTexture))
  {
    if Extension(path) == OBJ_EXTENSION {
      var loaded, requested;
      loaded, requested, warnings := LoadObjFile(path, file, checkerImage, checkerTexture, decoded, created);
      models := Some(loaded);
    } else {
      models := None;
      warnings := [UNSUPPORTED_FORMAT];
    }
  }
}
