/**
 `VoxelLibrary`: a fixed table of 256 optional voxel types together with
 the atlas and editor-paging settings.

 A voxel is a value here. The engine hands out reference-counted `Ref<Voxel>`
 handles, so a caller that keeps one can change a stored voxel behind the
 library's back; that aliasing is not modelled, and the operations that
 renumber the voxel they are given return the renumbered voxel instead.
 */
module VoxelLibrary {
  import opened Wrappers

  /** `MAX_VOXEL_TYPES`: voxel types are stored in 8 bits. */
  const MaxVoxelTypes: int := 256
  /** `ITEMS_PER_PAGE`. */
  const ItemsPerPage: int := 256

  /** C++ `int`. */
  type Int32 = x: int | -0x8000_0000 <= x < 0x8000_0000

  /** `Voxel::GeometryType`, as far as this library uses it. */
  datatype GeometryType = GeometryNone | GeometryCube

  /** The voxel fields the library reads or writes. */
  datatype Voxel = Voxel(id: int, name: string, transparent: bool, geometryType: GeometryType)

  /** A freshly created voxel (`memnew(Voxel)`) after `set_id` and `set_voxel_name`. */
  function NewVoxel(id: int, name: string): Voxel
  {
    Voxel(id, name, false, GeometryNone)
  }

  /** A valid type id: an index into the table. */
  predicate ValidId(id: int)
  {
    0 <= id < MaxVoxelTypes
  }

  /** The number of non-empty slots among `s`. */
  function Occupied(s: seq<Option<Voxel>>): (n: nat)
    ensures n <= |s|
  {
    if s == [] then 0
    else Occupied(s[..|s| - 1]) + (if s[|s| - 1].Some? then 1 else 0)
  }

  /** Overwriting one slot changes the count by what the slot lost and what it gained. */
  lemma {:induction false} OccupiedUpdate(s: seq<Option<Voxel>>, i: int, x: Option<Voxel>)
    requires 0 <= i < |s|
    ensures Occupied(s[i := x]) + (if s[i].Some? then 1 else 0) == Occupied(s) + (if x.Some? then 1 else 0)
  {
    var t, n := s[i := x], |s| - 1;
    if i == n {
      assert t[..n] == s[..n];
    } else {
      OccupiedUpdate(s[..n], i, x);
      assert t[..n] == s[..n][i := x];
    }
  }

  /** The count is zero exactly when every slot is empty, and full exactly when none is. */
  lemma {:induction false} OccupiedExtremes(s: seq<Option<Voxel>>)
    ensures Occupied(s) == 0 <==> forall i :: 0 <= i < |s| ==> s[i].None?
    ensures Occupied(s) == |s| <==> forall i :: 0 <= i < |s| ==> s[i].Some?
  {
    if s != [] {
      var n := |s| - 1;
      OccupiedExtremes(s[..n]);
      assert forall i :: 0 <= i < n ==> s[..n][i] == s[i];
    }
  }

  /**
   The bound in `set_voxel_editor_page`: `_voxel_editor_count / ITEMS_PER_PAGE`
   divides an `int` by an `unsigned int`, so the count is first converted to
   `unsigned`; a negative count therefore yields a large page limit.
   */
  function PageLimit(count: Int32): (r: int)
    ensures 0 <= r < 0x100_0000
    ensures count >= 0 ==> r == count / ItemsPerPage
    ensures count < 0 ==> r == (count + 0x1_0000_0000) / ItemsPerPage
  {
    (count % 0x1_0000_0000) / ItemsPerPage
  }

  /** With a count of -1 the editor accepts pages up to 16777215. */
  lemma NegativeCountWidensPages()
    ensures PageLimit(-1) == 0xFF_FFFF
  {
  }

  class Library {
    /** `_voxel_types`. */
    const slots: array<Option<Voxel>>
    /** `_atlas_size`, `_atlas_rows`, `_atlas_columns` and `_is_textured`. */
    var atlasSize: Int32
    var atlasRows: Int32
    var atlasColumns: Int32
    var isTextured: bool
    /** `_voxel_editor_count` and `_voxel_editor_page`. */
    var editorCount: Int32
    var editorPage: Int32
    /** `_material`, a material handle or null. */
    var material: Option<nat>

    /**
     The table has its fixed size, the atlas fields stay positive and every
     stored voxel carries the id of its slot.
     */
    ghost predicate Valid()
      reads this, slots
    {
      && slots.Length == MaxVoxelTypes
      && atlasSize >= 1 && atlasRows >= 1 && atlasColumns >= 1
      && forall i :: 0 <= i < slots.Length && slots[i].Some? ==> slots[i].value.id == i
    }

    /** The number of non-empty slots. */
    ghost function VoxelCount(): nat
      reads this, slots
    {
      Occupied(slots[..])
    }

    /** `VoxelLibrary()`: an empty table, a 1×1 atlas size, an 8×8 atlas, textured, editor at page 0 of 0 items. */
    constructor ()
      ensures Valid() && fresh(slots)
      ensures forall i :: 0 <= i < slots.Length ==> slots[i].None?
      ensures atlasSize == 1 && atlasRows == 8 && atlasColumns == 8 && isTextured
      ensures editorCount == 0 && editorPage == 0 && material == None
    {
      slots := new Option<Voxel>[MaxVoxelTypes](_ => None);
      atlasSize := 1;
      editorCount, editorPage := 0, 0;
      atlasRows, atlasColumns, isTextured := 8, 8, true;
      material := None;
    }

    /** `get_voxel_count`: counts the non-empty slots one by one. */
    method GetVoxelCount() returns (count: int)
      requires Valid()
      ensures count == VoxelCount()
      ensures 0 <= count <= MaxVoxelTypes
    {
      count := 0;
      for i := 0 to slots.Length
        invariant count == Occupied(slots[..i])
      {
        if slots[i].Some? {
          count := count + 1;
        }
        assert slots[..i + 1][..i] == slots[..i];
      }
      assert slots[..] == slots[..slots.Length];
    }

    /** `create_voxel`: stores a new voxel with the given id and name, or fails with null for an invalid id. */
    method CreateVoxel(id: Int32, name: string) returns (r: Option<Voxel>)
      requires Valid()
      modifies slots
      ensures Valid()
      ensures !ValidId(id) ==> r == None && slots[..] == old(slots[..])
      ensures ValidId(id) ==> r == Some(NewVoxel(id, name)) && slots[..] == old(slots[..])[id := r]
      ensures ValidId(id) ==> VoxelCount() == old(VoxelCount()) + (if old(slots[id]).None? then 1 else 0)
    {
      if !ValidId(id) {
        return None;
      }
      OccupiedUpdate(slots[..], id, Some(NewVoxel(id, name)));
      r := Some(NewVoxel(id, name));
      slots[id] := r;
    }

    /**
     `add_voxel`: gives the voxel the current count as its id, or fails when
     the table is full. The voxel is not stored, so the table is unchanged.
     */
    method AddVoxel(voxel: Voxel) returns (renumbered: Voxel)
      requires Valid()
      ensures VoxelCount() < MaxVoxelTypes ==> renumbered == voxel.(id := VoxelCount())
      ensures VoxelCount() >= MaxVoxelTypes ==> renumbered == voxel
    {
      var index := GetVoxelCount();
      if index >= MaxVoxelTypes {
        return voxel;
      }
      renumbered := voxel.(id := index);
    }

    /** `set_voxel`: stores the voxel under `id`, renumbered to `id`; an invalid id changes nothing. */
    method SetVoxel(id: Int32, voxel: Voxel) returns (stored: Voxel)
      requires Valid()
      modifies slots
      ensures Valid()
      ensures !ValidId(id) ==> stored == voxel && slots[..] == old(slots[..])
      ensures ValidId(id) ==> stored == voxel.(id := id) && slots[..] == old(slots[..])[id := Some(stored)]
      ensures ValidId(id) ==> VoxelCount() == old(VoxelCount()) + (if old(slots[id]).None? then 1 else 0)
    {
      if !ValidId(id) {
        return voxel;
      }
      stored := voxel.(id := id);
      OccupiedUpdate(slots[..], id, Some(stored));
      slots[id] := Some(stored);
    }

    /** `get_voxel`: the slot's content, or null for an invalid id. */
    method GetVoxel(id: Int32) returns (r: Option<Voxel>)
      requires Valid()
      ensures ValidId(id) ==> r == slots[id]
      ensures !ValidId(id) ==> r == None
      ensures r.Some? ==> r.value.id == id
    {
      if !ValidId(id) {
        return None;
      }
      r := slots[id];
    }

    /** `remove_voxel`: empties slot `id`; an invalid id changes nothing. */
    method RemoveVoxel(id: Int32)
      requires Valid()
      modifies slots
      ensures Valid()
      ensures !ValidId(id) ==> slots[..] == old(slots[..])
      ensures ValidId(id) ==> slots[..] == old(slots[..])[id := None]
      ensures ValidId(id) ==> VoxelCount() == old(VoxelCount()) - (if old(slots[id]).Some? then 1 else 0)
    {
      if !ValidId(id) {
        return;
      }
      OccupiedUpdate(slots[..], id, None);
      slots[id] := None;
    }

    /**
     `has_voxel`: whether slot `id` holds a voxel; there is no range check,
     so the id must be valid. An occupied slot means the count is at least
     one; an empty one means the table is not full.
     */
    predicate HasVoxel(id: int): (has: bool)
      requires Valid() && ValidId(id)
      reads this, slots
      ensures has ==> VoxelCount() >= 1
      ensures !has ==> VoxelCount() < MaxVoxelTypes
    {
      OccupiedExtremes(slots[..]);
      slots[id].Some?
    }

    /** `get_voxel_const`: dereferences slot `id`, which must hold a voxel; that voxel carries the id. */
    function GetVoxelConst(id: int): (v: Voxel)
      requires Valid() && ValidId(id) && HasVoxel(id)
      reads this, slots
      ensures slots[id] == Some(v)
      ensures v.id == id
    {
      slots[id].value
    }

    /**
     `load_default`: slot 0 becomes the transparent "air" voxel and slot 1
     the opaque cube "solid" voxel; the voxels are adjusted after creation,
     as the source does through the returned references.
     */
    method LoadDefault()
      requires Valid()
      modifies slots
      ensures Valid()
      ensures slots[..] == old(slots[..])
        [0 := Some(Voxel(0, "air", true, GeometryNone))]
        [1 := Some(Voxel(1, "solid", false, GeometryCube))]
    {
      var air := CreateVoxel(0, "air");
      slots[0] := Some(air.value.(transparent := true));
      var solid := CreateVoxel(1, "solid");
      slots[1] := Some(solid.value.(transparent := false, geometryType := GeometryCube));
    }

    function GetVoxelEditorCount(): Int32
      reads this
    {
      editorCount
    }

    /** `set_voxel_editor_count`: any value is stored. */
    method SetVoxelEditorCount(value: Int32)
      modifies this`editorCount
      ensures editorCount == value
    {
      editorCount := value;
    }

    function GetVoxelEditorPage(): Int32
      reads this
    {
      editorPage
    }

    /** `set_voxel_editor_page`: takes effect only for a page between 0 and the page limit of the count. */
    method SetVoxelEditorPage(value: Int32)
      modifies this`editorPage
      ensures 0 <= value <= PageLimit(editorCount) ==> editorPage == value
      ensures !(0 <= value <= PageLimit(editorCount)) ==> editorPage == old(editorPage)
    {
      if value < 0 || value > PageLimit(editorCount) {
        return;
      }
      editorPage := value;
    }

    /** `get_atlas_size`: the stored size, which is at least 1. */
    function GetAtlasSize(): (s: Int32)
      requires Valid()
      reads this, slots
      ensures s >= 1
    {
      atlasSize
    }

    /** `set_atlas_size`: a size of 0 or less is rejected and the old size kept. */
    method SetAtlasSize(s: Int32)
      requires Valid()
      modifies this`atlasSize
      ensures Valid()
      ensures s > 0 ==> atlasSize == s
      ensures s <= 0 ==> atlasSize == old(atlasSize)
    {
      if s <= 0 {
        return;
      }
      atlasSize := s;
    }

    /** `get_atlas_columns`: the stored column count, which is at least 1. */
    function GetAtlasColumns(): (s: Int32)
      requires Valid()
      reads this, slots
      ensures s >= 1
    {
      atlasColumns
    }

    /** `set_atlas_columns`: a count of 0 or less is rejected and the old count kept. */
    method SetAtlasColumns(s: Int32)
      requires Valid()
      modifies this`atlasColumns
      ensures Valid()
      ensures s > 0 ==> atlasColumns == s
      ensures s <= 0 ==> atlasColumns == old(atlasColumns)
    {
      if s <= 0 {
        return;
      }
      atlasColumns := s;
    }

    /** `get_atlas_rows`: the stored row count, which is at least 1. */
    function GetAtlasRows(): (s: Int32)
      requires Valid()
      reads this, slots
      ensures s >= 1
    {
      atlasRows
    }

    /** `set_atlas_rows`: a count of 0 or less is rejected and the old count kept. */
    method SetAtlasRows(s: Int32)
      requires Valid()
      modifies this`atlasRows
      ensures Valid()
      ensures s > 0 ==> atlasRows == s
      ensures s <= 0 ==> atlasRows == old(atlasRows)
    {
      if s <= 0 {
        return;
      }
      atlasRows := s;
    }

    function GetIsTextured(): bool
      reads this
    {
      isTextured
    }

    method SetIsTextured(value: bool)
      modifies this`isTextured
      ensures isTextured == value
    {
      isTextured := value;
    }

    function GetMaterial(): Option<nat>
      reads this
    {
      material
    }

    /** `set_material`: only the material changes, and `get_material` then returns it. */
    method SetMaterial(mat: Option<nat>)
      modifies this`material
      ensures GetMaterial() == mat
    {
      material := mat;
    }
  }
}
