/**
 * The small record codecs shared by the solid, entity and group codecs:
 * entity key/values, the `editor` block and visgroups.
 */
module Records {
  import opened Wrappers
  import opened Text
  import opened Structure
  import opened Geometry
  import opened MapObjects

  /** `node[key]` for a string field: an absent key reads as the empty string. */
  function StringOf(n: Node, key: string): string
  {
    Get(n, key).GetOr("")
  }

  // ---------------------------------------------------------------- entity data

  /** One property per distinct key, with that key's first value. */
  function KeyValues(n: Node, keys: seq<string>): (ps: seq<(string, string)>)
    requires forall k :: k in keys ==> Get(n, k).Some?
    ensures |ps| == |keys|
    ensures forall i :: 0 <= i < |keys| ==> ps[i] == (keys[i], Get(n, keys[i]).value)
  {
    if keys == [] then [] else [(keys[0], Get(n, keys[0]).value)] + KeyValues(n, keys[1..])
  }

  /**
   * `ReadEntityData`: every distinct key of the node once, in order of first
   * occurrence, with its first value; the flags come from `spawnflags`.
   */
  function ReadEntityData(n: Node): (d: EntityData)
    ensures d.name == ""
    ensures |d.properties| == |PropertyKeys(n)|
    ensures forall i :: 0 <= i < |d.properties| ==>
              d.properties[i].0 == PropertyKeys(n)[i] && Get(n, d.properties[i].0) == Some(d.properties[i].1)
    ensures d.flags == PropertyInteger(n, "spawnflags", 0)
  {
    EntityData("", KeyValues(n, PropertyKeys(n)), PropertyInteger(n, "spawnflags", 0))
  }

  /** `obj[key] = value` for each property in turn. */
  function AssignAll(n: Node, ps: seq<(string, string)>): (r: Node)
    ensures r.name == n.name && r.children == n.children
    decreases |ps|
  {
    if ps == [] then n else AssignAll(Set(n, ps[0].0, ps[0].1), ps[1..])
  }

  /** The value of the last property named `key`: the one that wins when they are assigned in order. */
  function LastValue(ps: seq<(string, string)>, key: string): Option<string>
  {
    if ps == [] then None
    else match LastValue(ps[1..], key)
      case Some(v) => Some(v)
      case None => if ps[0].0 == key then Some(ps[0].1) else None
  }

  lemma {:induction false} AssignAllGet(n: Node, ps: seq<(string, string)>, key: string)
    ensures Get(AssignAll(n, ps), key) == match LastValue(ps, key)
      case Some(v) => Some(v)
      case None => Get(n, key)
    decreases |ps|
  {
    if ps != [] {
      AssignAllGet(Set(n, ps[0].0, ps[0].1), ps[1..], key);
    }
  }

  /** `WriteEntityData`: assigns every property, then `spawnflags`. */
  function WriteEntityData(obj: Node, d: EntityData): Node
  {
    Set(AssignAll(obj, d.properties), "spawnflags", IntToString(d.flags))
  }

  /**
   * After `WriteEntityData`, `spawnflags` holds the flags and every other key
   * holds the last value the data gives it, or what the node had before.
   */
  lemma WriteEntityDataGet(obj: Node, d: EntityData, key: string)
    ensures Get(WriteEntityData(obj, d), key) ==
      if key == "spawnflags" then Some(IntToString(d.flags))
      else match LastValue(d.properties, key)
        case Some(v) => Some(v)
        case None => Get(obj, key)
  {
    AssignAllGet(obj, d.properties, key);
  }

  lemma {:induction false} LastValueOfKeyValues(n: Node, keys: seq<string>, key: string)
    requires forall k :: k in keys ==> Get(n, k).Some?
    requires Distinct(keys)
    ensures LastValue(KeyValues(n, keys), key) == if key in keys then Get(n, key) else None
  {
    if keys != [] {
      assert Distinct(keys[1..]) by {
        forall i, j | 0 <= i < j < |keys[1..]| ensures keys[1..][i] != keys[1..][j] {
          assert keys[1..][i] == keys[i + 1] && keys[1..][j] == keys[j + 1];
        }
      }
      assert keys[0] !in keys[1..] by {
        forall i | 0 <= i < |keys[1..]| ensures keys[1..][i] != keys[0] { assert keys[1..][i] == keys[i + 1]; }
      }
      LastValueOfKeyValues(n, keys[1..], key);
      assert KeyValues(n, keys)[1..] == KeyValues(n, keys[1..]);
    }
  }

  /**
   * Reading entity data and writing it into a fresh block reproduces the
   * first value of every key except `spawnflags`, which is rewritten from the flags.
   */
  lemma EntityDataRoundTrip(n: Node, name: string, key: string)
    requires key != "spawnflags"
    ensures Get(WriteEntityData(Empty(name), ReadEntityData(n)), key) == Get(n, key)
  {
    var d := ReadEntityData(n);
    WriteEntityDataGet(Empty(name), d, key);
    LastValueOfKeyValues(n, PropertyKeys(n), key);
  }

  // ---------------------------------------------------------------- editor block

  /** The IDs of the group an object's `Parent` refers to, if it is a group. */
  function GroupIdOf(p: ParentLink): Option<int>
  {
    if p.GroupParent? then Some(p.groupId) else None
  }

  function AddVisgroupIds(n: Node, ids: seq<int>): (r: Node)
    ensures r.name == n.name && r.children == n.children
    ensures r.props == n.props + VisgroupProps(ids)
    decreases ids
  {
    if ids == [] then n
    else
      var r := AddVisgroupIds(AddProperty(n, "visgroupid", IntToString(ids[0])), ids[1..]);
      assert VisgroupProps(ids) == [("visgroupid", IntToString(ids[0]))] + VisgroupProps(ids[1..]);
      assert r.props == n.props + [("visgroupid", IntToString(ids[0]))] + VisgroupProps(ids[1..]);
      r
  }

  function VisgroupProps(ids: seq<int>): (ps: seq<(string, string)>)
    ensures |ps| == |ids|
    ensures forall i :: 0 <= i < |ps| ==> ps[i].0 == "visgroupid"
  {
    if ids == [] then [] else [("visgroupid", IntToString(ids[0]))] + VisgroupProps(ids[1..])
  }

  /**
   * `WriteEditor`: colour, one `visgroupid` per visgroup in order, the two
   * shown flags, and `groupid` only when the parent is a group.
   */
  function WriteEditor(colour: Colour, visgroups: seq<int>, parent: ParentLink): Node
  {
    var e := Set(Set(EditorHead(colour, visgroups), "visgroupshown", "1"), "visgroupautoshown", "1");
    match GroupIdOf(parent)
    case Some(g) => Set(e, "groupid", IntToString(g))
    case None => e
  }

  /** The colour and the visgroup IDs, the first part of the editor block. */
  function EditorHead(colour: Colour, visgroups: seq<int>): Node
  {
    AddVisgroupIds(Set(Empty("editor"), "color", FormatColor(colour)), visgroups)
  }

  function IntStrings(ids: seq<int>): (r: seq<string>)
  {
    if ids == [] then [] else [IntToString(ids[0])] + IntStrings(ids[1..])
  }

  /** The trailing `groupid` property of the editor block, when the parent is a group. */
  function GroupIdProps(parent: ParentLink): seq<(string, string)>
  {
    if parent.GroupParent? then [("groupid", IntToString(parent.groupId))] else []
  }

  predicate NoKey(ps: seq<(string, string)>, key: string)
  {
    forall i :: 0 <= i < |ps| ==> ps[i].0 != key
  }

  /** Assigning a key the properties do not have appends it. */
  lemma AssignAbsent(ps: seq<(string, string)>, key: string, v: string)
    requires NoKey(ps, key)
    ensures Assign(ps, key, v) == ps + [(key, v)]
  {
    assert Lookup(ps, key).None?;
  }

  lemma {:induction false} ValuesOfVisgroupProps(ids: seq<int>, key: string)
    ensures Values(VisgroupProps(ids), key) == if key == "visgroupid" then IntStrings(ids) else []
  {
    if ids != [] {
      assert VisgroupProps(ids)[1..] == VisgroupProps(ids[1..]);
      ValuesOfVisgroupProps(ids[1..], key);
    }
  }

  lemma EditorHeadProps(colour: Colour, visgroups: seq<int>)
    ensures EditorHead(colour, visgroups) ==
      Node("editor", [("color", FormatColor(colour))] + VisgroupProps(visgroups), [])
    ensures NoKey(EditorHead(colour, visgroups).props, "visgroupshown")
    ensures NoKey(EditorHead(colour, visgroups).props, "visgroupautoshown")
    ensures NoKey(EditorHead(colour, visgroups).props, "groupid")
  {
    var vp := VisgroupProps(visgroups);
    var ps1 := [("color", FormatColor(colour))] + vp;
    assert forall i :: 0 < i < |ps1| ==> ps1[i] == vp[i - 1];
  }

  /** The two shown flags are appended after the head. */
  lemma EditorFlagsProps(head: Node)
    requires NoKey(head.props, "visgroupshown") && NoKey(head.props, "visgroupautoshown")
    ensures Set(Set(head, "visgroupshown", "1"), "visgroupautoshown", "1").props ==
      head.props + [("visgroupshown", "1")] + [("visgroupautoshown", "1")]
  {
    AssignAbsent(head.props, "visgroupshown", "1");
    var ps2 := head.props + [("visgroupshown", "1")];
    assert ps2[|head.props|].0 == "visgroupshown";
    assert NoKey(ps2, "visgroupautoshown");
    AssignAbsent(ps2, "visgroupautoshown", "1");
  }

  /** The exact property list `WriteEditor` produces. */
  lemma EditorProps(colour: Colour, visgroups: seq<int>, parent: ParentLink)
    ensures WriteEditor(colour, visgroups, parent).props ==
      EditorHead(colour, visgroups).props + [("visgroupshown", "1")] + [("visgroupautoshown", "1")]
      + GroupIdProps(parent)
    ensures EditorHead(colour, visgroups).props ==
      [("color", FormatColor(colour))] + VisgroupProps(visgroups)
  {
    var head := EditorHead(colour, visgroups);
    EditorHeadProps(colour, visgroups);
    EditorFlagsProps(head);
    if parent.GroupParent? {
      EditorGroupStep(head.props, IntToString(parent.groupId));
    }
  }

  lemma EditorGroupStep(ps: seq<(string, string)>, g: string)
    requires NoKey(ps, "groupid")
    ensures Assign(ps + [("visgroupshown", "1")] + [("visgroupautoshown", "1")], "groupid", g) ==
      ps + [("visgroupshown", "1")] + [("visgroupautoshown", "1")] + [("groupid", g)]
  {
    var ps3 := ps + [("visgroupshown", "1")] + [("visgroupautoshown", "1")];
    assert ps3[|ps|].0 == "visgroupshown";
    assert ps3[|ps| + 1].0 == "visgroupautoshown";
    assert NoKey(ps3, "groupid");
    AssignAbsent(ps3, "groupid", g);
  }

  /** `GetAllPropertyValues("visgroupid").Select(int.Parse)`. */
  function ReadVisgroupIds(editor: Node): seq<int>
  {
    ParseAll(AllValues(editor, "visgroupid"))
  }

  function ParseAll(ss: seq<string>): (r: seq<int>)
    ensures |r| == |ss|
    ensures forall i :: 0 <= i < |ss| && ParseInt(ss[i]).Some? ==> r[i] == ParseInt(ss[i]).value
  {
    if ss == [] then [] else [ParseInt(ss[0]).GetOr(0)] + ParseAll(ss[1..])
  }

  /** The colour written into the editor block reads back unchanged. */
  lemma EditorColourRoundTrip(colour: Colour, visgroups: seq<int>, parent: ParentLink, default: Colour)
    ensures PropertyColour(WriteEditor(colour, visgroups, parent), "color", default) == colour
  {
    EditorProps(colour, visgroups, parent);
    ColourRoundTrip(Empty("editor"), "color", colour, default);
  }

  /** The visgroup list written into the editor block reads back unchanged, in order. */
  lemma EditorVisgroupsRoundTrip(colour: Colour, visgroups: seq<int>, parent: ParentLink)
    ensures ReadVisgroupIds(WriteEditor(colour, visgroups, parent)) == visgroups
  {
    EditorVisgroupValues(colour, visgroups, parent);
    ParseIntStrings(visgroups);
  }

  /** The `visgroupid` values of the editor block are the visgroup IDs written out, in order. */
  lemma EditorVisgroupValues(colour: Colour, visgroups: seq<int>, parent: ParentLink)
    ensures AllValues(WriteEditor(colour, visgroups, parent), "visgroupid") == IntStrings(visgroups)
  {
    EditorProps(colour, visgroups, parent);
    var gp := GroupIdProps(parent);
    assert NoKey(gp, "visgroupid");
    VisgroupValues(FormatColor(colour), visgroups, gp);
  }

  /** Only the visgroup properties of the editor's property list carry `visgroupid`. */
  lemma VisgroupValues(colour: string, visgroups: seq<int>, gp: seq<(string, string)>)
    requires NoKey(gp, "visgroupid")
    ensures Values([("color", colour)] + VisgroupProps(visgroups) + [("visgroupshown", "1")]
                   + [("visgroupautoshown", "1")] + gp, "visgroupid") == IntStrings(visgroups)
  {
    var c := [("color", colour)];
    var vp := VisgroupProps(visgroups);
    var a, b := [("visgroupshown", "1")], [("visgroupautoshown", "1")];
    var key := "visgroupid";
    ValuesAppend(c + vp + a + b, gp, key);
    ValuesAppend(c + vp + a, b, key);
    ValuesAppend(c + vp, a, key);
    ValuesAppend(c, vp, key);
    NoValues(c, key);
    NoValues(a, key);
    NoValues(b, key);
    NoValues(gp, key);
    ValuesOfVisgroupProps(visgroups, key);
  }

  lemma {:induction false} ParseIntStrings(ids: seq<int>)
    ensures ParseAll(IntStrings(ids)) == ids
  {
    if ids != [] {
      IntRoundTrip(ids[0]);
      ParseIntStrings(ids[1..]);
    }
  }

  lemma {:induction false} NoValues(ps: seq<(string, string)>, key: string)
    requires NoKey(ps, key)
    ensures Values(ps, key) == []
  {
    if ps != [] {
      NoValues(ps[1..], key);
    }
  }

  /** The `groupid` written into the editor block reads back as the parent group's ID, 0 for other parents. */
  lemma EditorGroupRoundTrip(colour: Colour, visgroups: seq<int>, parent: ParentLink)
    ensures PropertyLong(WriteEditor(colour, visgroups, parent), "groupid") ==
      (if parent.GroupParent? then parent.groupId else 0)
  {
    var e := WriteEditor(colour, visgroups, parent);
    EditorGroupLookup(colour, visgroups, parent);
    if parent.GroupParent? {
      IntRoundTrip(parent.groupId);
    }
  }

  lemma EditorGroupLookup(colour: Colour, visgroups: seq<int>, parent: ParentLink)
    ensures Get(WriteEditor(colour, visgroups, parent), "groupid") ==
      (if parent.GroupParent? then Some(IntToString(parent.groupId)) else None)
  {
    EditorProps(colour, visgroups, parent);
    EditorHeadProps(colour, visgroups);
    var h := EditorHead(colour, visgroups).props;
    NoKeyAppend(h, "groupid", ("visgroupshown", "1"));
    var h2 := h + [("visgroupshown", "1")];
    NoKeyAppend(h2, "groupid", ("visgroupautoshown", "1"));
    var ps := h2 + [("visgroupautoshown", "1")];
    if parent.GroupParent? {
      LookupAfter(ps, "groupid", IntToString(parent.groupId));
    } else {
      assert GroupIdProps(parent) == [];
      assert ps + GroupIdProps(parent) == ps;
      assert Lookup(ps, "groupid").None?;
    }
  }

  lemma NoKeyAppend(ps: seq<(string, string)>, key: string, p: (string, string))
    requires NoKey(ps, key) && p.0 != key
    ensures NoKey(ps + [p], key)
  {
  }

  lemma {:induction false} LookupAfter(ps: seq<(string, string)>, key: string, v: string)
    requires Lookup(ps, key).None?
    ensures Lookup(ps + [(key, v)], key) == Some(v)
  {
    if ps != [] {
      assert (ps + [(key, v)])[1..] == ps[1..] + [(key, v)];
      LookupAfter(ps[1..], key, v);
    }
  }

  // ---------------------------------------------------------------- visgroups

  /** `ReadVisgroup`: name, ID, colour (default when absent or malformed), always visible. */
  function ReadVisgroup(env: Env, n: Node): Visgroup
  {
    Visgroup(PropertyInteger(n, "visgroupid", 0), StringOf(n, "name"),
             PropertyColour(n, "color", env.brushColour), true)
  }

  /** `WriteVisgroup`: name, ID and colour. */
  function WriteVisgroup(v: Visgroup): Node
  {
    Set(Set(Set(Empty("visgroup"), "name", v.name), "visgroupid", IntToString(v.id)), "color", FormatColor(v.colour))
  }

  /** A written visgroup reads back unchanged, except that it is visible again. */
  lemma VisgroupRoundTrip(env: Env, v: Visgroup)
    ensures ReadVisgroup(env, WriteVisgroup(v)) == v.(visible := true)
  {
    var a := Set(Empty("visgroup"), "name", v.name);
    var b := Set(a, "visgroupid", IntToString(v.id));
    SetOther(a, "visgroupid", IntToString(v.id), "name");
    SetOther(b, "color", FormatColor(v.colour), "name");
    SetOther(b, "color", FormatColor(v.colour), "visgroupid");
    SetIntegerReadsBack(a, "visgroupid", v.id, 0);
    ColourRoundTrip(b, "color", v.colour, env.brushColour);
  }
}
