/**
 * The decal registry as values: the uploaded decals in upload order and the
 * id of the active one, with one function per operation the script performs on
 * them (`addImageToScene`, `getActiveImage`, `setActiveImage`, the
 * `updateActive` closure, the delete handler and `updateAllImages`). The class
 * in module Scene updates its fields exactly as these functions say.
 */
module DecalRegistry {
  import opened Options
  import opened BoxGeometry
  import opened DecalPlacement

  /** Decal ids are numbers (the clock plus a random fraction in the script). */
  type Id = real

  /** Height of a new decal's plane; its width follows the image's aspect ratio. */
  const BaseSize: real := 10.0

  /** One uploaded image: id, file name, plane size, its settings and its
      current pose. */
  datatype Decal = Decal(id: Id, name: string, planeWidth: real, planeHeight: real, config: DecalConfig, placement: Placement)

  /** `uploadedImages` and `activeImageId`. */
  datatype Registry = Registry(images: seq<Decal>, activeId: Option<Id>)

  const EmptyRegistry: Registry := Registry([], None)

  function Ids(s: seq<Decal>): set<Id>
  {
    set i | 0 <= i < |s| :: s[i].id
  }

  predicate UniqueIds(s: seq<Decal>)
  {
    forall i, j :: 0 <= i < j < |s| ==> s[i].id != s[j].id
  }

  /** Every decal's pose is the one the resolver gives for the box. */
  predicate Placed(s: seq<Decal>, c: BoxConfig)
  {
    forall i :: 0 <= i < |s| ==> s[i].placement == Resolve(c, s[i].config)
  }

  /** `findIndex` by id: the first position holding the id, if any. */
  function FindIndex(s: seq<Decal>, id: Id): (r: Option<nat>)
    ensures r.Some? ==> r.value < |s| && s[r.value].id == id && forall j :: 0 <= j < r.value ==> s[j].id != id
    ensures r.None? ==> id !in Ids(s)
  {
    if s == [] then None
    else if s[0].id == id then Some(0)
    else
      match FindIndex(s[1..], id)
      case None =>
        assert forall i :: 0 < i < |s| ==> s[i].id == s[1..][i - 1].id;
        None
      case Some(k) => Some(k + 1)
  }

  /** `getActiveImage`: the decal whose id is the active id, if there is one. */
  function ActiveDecal(r: Registry): (d: Option<Decal>)
    ensures d.Some? ==> r.activeId == Some(d.value.id)
    ensures d.Some? ==> exists k :: 0 <= k < |r.images| && r.images[k] == d.value && forall j :: 0 <= j < k ==> r.images[j].id != d.value.id
    ensures d.None? ==> r.activeId.None? || r.activeId.value !in Ids(r.images)
  {
    match r.activeId
    case None => None
    case Some(id) =>
      match FindIndex(r.images, id)
      case None => None
      case Some(k) => Some(r.images[k])
  }

  /** The decal `addImageToScene` creates for a decoded image of the given size. */
  function NewDecal(id: Id, name: string, imageWidth: real, imageHeight: real, c: BoxConfig): (d: Decal)
    requires imageHeight > 0.0
    ensures d.id == id && d.name == name && d.config == DefaultDecalConfig
    ensures d.planeHeight == BaseSize && d.planeWidth * imageHeight == d.planeHeight * imageWidth
    ensures Placed([d], c)
  {
    Decal(id, name, BaseSize * (imageWidth / imageHeight), BaseSize, DefaultDecalConfig, Resolve(c, DefaultDecalConfig))
  }

  /** `addImageToScene`: append the new decal, make it active, place it. */
  function Added(r: Registry, id: Id, name: string, imageWidth: real, imageHeight: real, c: BoxConfig): (a: Registry)
    requires imageHeight > 0.0
    ensures |a.images| == |r.images| + 1 && a.images[..|r.images|] == r.images
    ensures a.images[|r.images|].id == id && a.activeId == Some(id)
  {
    Registry(r.images + [NewDecal(id, name, imageWidth, imageHeight, c)], Some(id))
  }

  /** The state part of `setActiveImage`: the id is recorded before anything
      checks that a decal has it. */
  function Selected(r: Registry, id: Id): (s: Registry)
    ensures s.images == r.images && s.activeId == Some(id)
  {
    r.(activeId := Some(id))
  }

  /** One edit from the decal editor: which setting, and its new value. */
  datatype Edit = SetFace(face: Face) | SetX(x: real) | SetY(y: real) | SetScale(scale: real) | SetRotate(rotate: real)

  /** `img.config[prop] = val`: the named setting takes the value, the others stay. */
  function ApplyEdit(d: DecalConfig, e: Edit): (r: DecalConfig)
    ensures r.face == (if e.SetFace? then e.face else d.face)
    ensures r.x == (if e.SetX? then e.x else d.x)
    ensures r.y == (if e.SetY? then e.y else d.y)
    ensures r.scale == (if e.SetScale? then e.scale else d.scale)
    ensures r.rotate == (if e.SetRotate? then e.rotate else d.rotate)
  {
    match e
    case SetFace(f) => d.(face := f)
    case SetX(v) => d.(x := v)
    case SetY(v) => d.(y := v)
    case SetScale(v) => d.(scale := v)
    case SetRotate(v) => d.(rotate := v)
  }

  /** The `updateActive` closure: edit the active decal's settings and
      re-place it; nothing happens when no decal has the active id. */
  function Edited(r: Registry, e: Edit, c: BoxConfig): (t: Registry)
    ensures |t.images| == |r.images| && t.activeId == r.activeId
    ensures ActiveDecal(r).None? ==> t == r
  {
    match r.activeId
    case None => r
    case Some(id) =>
      match FindIndex(r.images, id)
      case None => r
      case Some(k) =>
        var cfg := ApplyEdit(r.images[k].config, e);
        r.(images := r.images[k := r.images[k].(config := cfg, placement := Resolve(c, cfg))])
  }

  /** The delete handler: nothing when the active id is unset (null or 0) or
      names no decal; otherwise splice that decal out and clear the active id. */
  function Deleted(r: Registry): (t: Registry)
    ensures t == r || (t.activeId == None && |t.images| + 1 == |r.images| && r.activeId.Some? && r.activeId.value in Ids(r.images))
  {
    if r.activeId == None || r.activeId == Some(0.0) then r
    else
      match FindIndex(r.images, r.activeId.value)
      case None => r
      case Some(k) => Registry(r.images[..k] + r.images[k + 1..], None)
  }

  /** `updateAllImages`: every decal re-placed for the box, nothing else touched. */
  function Replaced(s: seq<Decal>, c: BoxConfig): (t: seq<Decal>)
    ensures |t| == |s| && Placed(t, c)
    ensures forall i :: 0 <= i < |s| ==> t[i].(placement := s[i].placement) == s[i]
  {
    seq(|s|, i requires 0 <= i < |s| => s[i].(placement := Resolve(c, s[i].config)))
  }

  /** Reference definition of removal: the list filtered of one id. */
  function Without(s: seq<Decal>, id: Id): (t: seq<Decal>)
    ensures |t| <= |s|
    ensures forall i :: 0 <= i < |t| ==> t[i].id != id
  {
    if s == [] then []
    else (if s[0].id == id then [] else [s[0]]) + Without(s[1..], id)
  }

  // ----- lemmas -----

  /** The ids of a non-empty list: the head's and the tail's. */
  lemma IdsOfTail(s: seq<Decal>)
    requires s != []
    ensures Ids(s) == {s[0].id} + Ids(s[1..])
  {
    forall x | x in Ids(s) ensures x in {s[0].id} + Ids(s[1..]) {
      var i :| 0 <= i < |s| && s[i].id == x;
      if i > 0 { assert s[1..][i - 1].id == x; }
    }
    forall x | x in Ids(s[1..]) ensures x in Ids(s) {
      var i :| 0 <= i < |s[1..]| && s[1..][i].id == x;
      assert s[i + 1].id == x;
    }
  }

  lemma {:induction false} WithoutAbsent(s: seq<Decal>, id: Id)
    requires id !in Ids(s)
    ensures Without(s, id) == s
  {
    if s != [] {
      IdsOfTail(s);
      WithoutAbsent(s[1..], id);
    }
  }

  /** With unique ids, splicing out position k is filtering out its id. */
  lemma {:induction false} SpliceIsWithout(s: seq<Decal>, k: nat)
    requires UniqueIds(s) && k < |s|
    ensures s[..k] + s[k + 1..] == Without(s, s[k].id)
  {
    if k == 0 {
      forall i | 0 <= i < |s[1..]| ensures s[1..][i].id != s[0].id {
        assert s[1..][i] == s[i + 1];
      }
      WithoutAbsent(s[1..], s[k].id);
    } else {
      assert s[0].id != s[k].id;
      SpliceIsWithout(s[1..], k - 1);
      assert s[1..][k - 1] == s[k];
      assert s[1..][..k - 1] + s[1..][k..] == s[1..k] + s[k + 1..];
      assert s[..k] + s[k + 1..] == [s[0]] + (s[1..k] + s[k + 1..]);
    }
  }

  /** The first position of an id only depends on the ids of the list. */
  lemma {:induction false} FindIndexByIds(s: seq<Decal>, t: seq<Decal>, id: Id)
    requires |s| == |t| && forall i :: 0 <= i < |s| ==> s[i].id == t[i].id
    ensures FindIndex(s, id) == FindIndex(t, id)
  {
    if s != [] && s[0].id != id {
      FindIndexByIds(s[1..], t[1..], id);
    }
  }

  /** A fresh id appended at the end is found there. */
  lemma {:induction false} FindAppended(s: seq<Decal>, d: Decal)
    requires d.id !in Ids(s)
    ensures FindIndex(s + [d], d.id) == Some(|s|)
  {
    if s == [] {
      assert [] + [d] == [d];
    } else {
      IdsOfTail(s);
      assert (s + [d])[1..] == s[1..] + [d];
      FindAppended(s[1..], d);
    }
  }

  /** Adding appends exactly one decal, with the default settings, a plane
      10 high and as wide as the image's aspect ratio requires, placed on the
      front; it becomes the active decal; the ids stay unique. */
  lemma AddAppendsOne(r: Registry, id: Id, name: string, imageWidth: real, imageHeight: real, c: BoxConfig)
    requires imageHeight > 0.0 && id !in Ids(r.images)
    ensures var a := Added(r, id, name, imageWidth, imageHeight, c);
      var d := a.images[|r.images|];
      |a.images| == |r.images| + 1 && a.images[..|r.images|] == r.images &&
      d.id == id && d.name == name && d.config == DecalConfig(Front, 0.0, 0.0, 1.0, 0.0) &&
      d.planeWidth == 10.0 * imageWidth / imageHeight && d.planeHeight == 10.0 &&
      d.placement == Resolve(c, d.config) &&
      a.activeId == Some(id) && ActiveDecal(a) == Some(d) &&
      (UniqueIds(r.images) ==> UniqueIds(a.images)) &&
      (Placed(r.images, c) ==> Placed(a.images, c))
  {
    var a := Added(r, id, name, imageWidth, imageHeight, c);
    FindAppended(r.images, NewDecal(id, name, imageWidth, imageHeight, c));
    if UniqueIds(r.images) {
      forall i, j | 0 <= i < j < |a.images| ensures a.images[i].id != a.images[j].id {
        if j == |r.images| {
          assert r.images[i].id in Ids(r.images);
        }
      }
    }
  }

  /** Deleting changes nothing when the active id is unset (null or 0) or
      names no decal. */
  lemma DeleteWithoutActiveDecal(r: Registry)
    requires r.activeId == None || r.activeId == Some(0.0) || r.activeId.value !in Ids(r.images)
    ensures Deleted(r) == r
  {
  }

  /** Otherwise deleting removes exactly the active decal, keeps the others in
      their order, and clears the active id. */
  lemma DeleteRemovesActive(r: Registry)
    requires UniqueIds(r.images) && r.activeId.Some? && r.activeId.value != 0.0
    requires r.activeId.value in Ids(r.images)
    ensures var id, t := r.activeId.value, Deleted(r);
      t.images == Without(r.images, id) && t.activeId == None &&
      |t.images| == |r.images| - 1 && Ids(t.images) == Ids(r.images) - {id} &&
      UniqueIds(t.images) && ActiveDecal(t) == None
  {
    var k := FindIndex(r.images, r.activeId.value).value;
    SpliceIsWithout(r.images, k);
    SpliceKeepsOthers(r.images, k);
  }

  /** Splicing out position k of a list with unique ids removes exactly that
      id and keeps the others unique. */
  lemma SpliceKeepsOthers(s: seq<Decal>, k: nat)
    requires UniqueIds(s) && k < |s|
    ensures Ids(s[..k] + s[k + 1..]) == Ids(s) - {s[k].id}
    ensures UniqueIds(s[..k] + s[k + 1..])
  {
    var t := s[..k] + s[k + 1..];
    assert forall i :: 0 <= i < |t| ==> t[i] == if i < k then s[i] else s[i + 1];
    forall x | x in Ids(s) - {s[k].id} ensures x in Ids(t) {
      var i :| 0 <= i < |s| && s[i].id == x;
      if i < k { assert t[i].id == x; } else { assert t[i - 1].id == x; }
    }
  }

  /** Adding an image and deleting it right away gives back the list as it
      was, with no active decal; from an empty registry, an empty registry. */
  lemma AddThenDelete(r: Registry, id: Id, name: string, imageWidth: real, imageHeight: real, c: BoxConfig)
    requires imageHeight > 0.0 && id != 0.0 && id !in Ids(r.images)
    ensures Deleted(Added(r, id, name, imageWidth, imageHeight, c)) == Registry(r.images, None)
    ensures r == EmptyRegistry ==> Deleted(Added(r, id, name, imageWidth, imageHeight, c)) == EmptyRegistry
  {
    var d := NewDecal(id, name, imageWidth, imageHeight, c);
    FindAppended(r.images, d);
    assert (r.images + [d])[..|r.images|] == r.images;
  }

  /** Editing touches the active decal only: its one setting changes and its
      pose is recomputed; every other decal, the order and the active id stay. */
  lemma EditTouchesActiveOnly(r: Registry, e: Edit, c: BoxConfig)
    ensures var t := Edited(r, e, c);
      |t.images| == |r.images| && t.activeId == r.activeId &&
      (ActiveDecal(r).None? ==> t == r) &&
      forall i :: 0 <= i < |r.images| ==>
        t.images[i].id == r.images[i].id && t.images[i].name == r.images[i].name &&
        t.images[i].planeWidth == r.images[i].planeWidth && t.images[i].planeHeight == r.images[i].planeHeight &&
        if Some(r.images[i]) == ActiveDecal(r) && FindIndex(r.images, r.images[i].id) == Some(i) then
          t.images[i].config == ApplyEdit(r.images[i].config, e) && t.images[i].placement == Resolve(c, t.images[i].config)
        else t.images[i] == r.images[i]
  {
  }

  /** Editing keeps the ids unique and every pose in step with the box. */
  lemma EditKeepsInvariants(r: Registry, e: Edit, c: BoxConfig)
    requires UniqueIds(r.images) && Placed(r.images, c)
    ensures UniqueIds(Edited(r, e, c).images) && Placed(Edited(r, e, c).images, c)
  {
  }

  /** Editing never changes which id sits where. */
  lemma EditKeepsIds(r: Registry, e: Edit, c: BoxConfig)
    ensures |Edited(r, e, c).images| == |r.images|
    ensures forall i :: 0 <= i < |r.images| ==> Edited(r, e, c).images[i].id == r.images[i].id
  {
  }

  /** Moving the active decal to another face and back restores the registry
      exactly: re-resolving forgets the intermediate pose. */
  lemma FaceRoundTrip(r: Registry, f: Face, c: BoxConfig)
    requires Placed(r.images, c) && ActiveDecal(r).Some?
    ensures Edited(Edited(r, SetFace(f), c), SetFace(ActiveDecal(r).value.config.face), c) == r
  {
    var t := Edited(r, SetFace(f), c);
    FindIndexByIds(r.images, t.images, r.activeId.value);
    var k := FindIndex(r.images, r.activeId.value).value;
    var u := Edited(t, SetFace(ActiveDecal(r).value.config.face), c);
    assert u.images[k] == r.images[k];
    assert u.images == r.images;
  }

  /** Re-placing after a rebuild keeps the list, its order and every decal's
      settings, and puts every pose in step with the new box. */
  lemma ReplacedKeepsSettings(s: seq<Decal>, c: BoxConfig)
    ensures var t := Replaced(s, c);
      Placed(t, c) && Ids(t) == Ids(s) && (UniqueIds(s) ==> UniqueIds(t)) &&
      forall i :: 0 <= i < |s| ==>
        t[i].id == s[i].id && t[i].name == s[i].name && t[i].config == s[i].config &&
        t[i].planeWidth == s[i].planeWidth && t[i].planeHeight == s[i].planeHeight
  {
    var t := Replaced(s, c);
    assert Ids(t) == Ids(s) by {
      forall x | x in Ids(s) ensures x in Ids(t) {
        var i :| 0 <= i < |s| && s[i].id == x;
        assert t[i].id == x;
      }
    }
  }

  /** Re-placing for a box the poses already match changes nothing, and only
      the last box counts when re-placing twice. */
  lemma ReplacedForgetsEarlierBoxes(s: seq<Decal>, c1: BoxConfig, c2: BoxConfig)
    ensures Placed(s, c1) ==> Replaced(s, c1) == s
    ensures Replaced(Replaced(s, c1), c2) == Replaced(s, c2)
  {
  }

  /** Selecting records the id even when no decal has it; then there is no
      active decal to edit or delete. */
  lemma SelectUnknownId(r: Registry, id: Id, e: Edit, c: BoxConfig)
    requires id !in Ids(r.images)
    ensures Selected(r, id).activeId == Some(id)
    ensures ActiveDecal(Selected(r, id)) == None
    ensures Edited(Selected(r, id), e, c) == Selected(r, id)
    ensures Deleted(Selected(r, id)) == Selected(r, id)
  {
  }
}
