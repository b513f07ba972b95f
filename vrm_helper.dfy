/**
  The VRoid bone-renaming operator of the VRM add-on and the operators
  that add human-bone custom properties.  `Reprstr` turns a VRoid name
  `Prefix_L_Suffix` into Blender's `Prefix_Suffix_L` (likewise `_R_`);
  `BonesRename` applies it to every bone name, to the `bones` and
  `colliderGroups` lists of the spring-bone JSON text and to the values of
  the human-bone custom properties.
*/
module VrmHelper {
  import opened Wrappers

  // ---------------------------------------------------------------------
  // The regular expression `(.*)_X_(.*)` under `re.match`
  // ---------------------------------------------------------------------

  /** The three characters `_`, `side`, `_` start at index `i` of `s`. */
  predicate MarkerAt(s: string, i: int, side: char)
  {
    0 <= i && i + 3 <= |s| && s[i] == '_' && s[i + 1] == side && s[i + 2] == '_'
  }

  predicate HasMarker(s: string, side: char)
  {
    exists i :: 0 <= i < |s| && MarkerAt(s, i, side)
  }

  predicate NoNewline(s: string)
  {
    forall i :: 0 <= i < |s| ==> s[i] != '\n'
  }

  /** The text before the first newline: `.` does not match a newline, so a match lies within it. */
  function FirstLine(s: string): (r: string)
    ensures |r| <= |s| && r == s[..|r|]
    ensures NoNewline(r)
    // the line ends at the first newline, or at the end of the name
    ensures |r| == |s| || s[|r|] == '\n'
  {
    if s == [] then []
    else if s[0] == '\n' then []
    else [s[0]] + FirstLine(s[1..])
  }

  /** The last start index below `n` of a marker for `side`. */
  function LastMarkerBelow(s: string, side: char, n: nat): Option<nat>
    decreases n
  {
    if n == 0 then None
    else if MarkerAt(s, n - 1, side) then Some(n - 1)
    else LastMarkerBelow(s, side, n - 1)
  }

  /** The two groups of a match. */
  datatype Groups = Groups(before: string, after: string)

  /**
    `re.match("(.*)_X_(.*)", name)`: the greedy first group stops at the
    last marker of the first line, the second group runs to the line's end.
  */
  function MatchSide(name: string, side: char): Option<Groups>
  {
    var line := FirstLine(name);
    match LastMarkerBelow(line, side, |line|)
    case None => None
    case Some(i) => if i + 3 <= |line| then Some(Groups(line[..i], line[i + 3..])) else None
  }

  /**
    What `reprstr` returns: the name unchanged when neither side matches;
    otherwise the groups of the `_L_` match (of the `_R_` match when there
    is none), each followed by `_`, then `R` when `_R_` matched and `L`
    when only `_L_` did.
  */
  function SwapSideSuffix(name: string): string
  {
    var ml := MatchSide(name, 'L');
    var mr := MatchSide(name, 'R');
    if ml.None? && mr.None? then name
    else
      var g := if ml.Some? then ml.value else mr.value;
      g.before + "_" + g.after + "_" + (if mr.Some? then "R" else "L")
  }

  /** Each group followed by `_`, as the accumulating loop builds it. */
  function SuffixEach(groups: seq<string>): string
    decreases |groups|
  {
    if groups == [] then "" else SuffixEach(groups[..|groups| - 1]) + groups[|groups| - 1] + "_"
  }

  lemma SuffixEachSnoc(groups: seq<string>, i: int)
    requires 0 <= i < |groups|
    ensures SuffixEach(groups[..i + 1]) == SuffixEach(groups[..i]) + groups[i] + "_"
  {
    assert groups[..i + 1][..i] == groups[..i];
  }

  /** Two groups, as `reprstr` always has, each followed by `_`. */
  lemma SuffixEachTwo(a: string, b: string)
    ensures SuffixEach([a, b]) == a + "_" + b + "_"
  {
    assert [a, b][..1] == [a];
    assert [a][..0] == [];
    assert SuffixEach([a]) == "" + a + "_";
    assert "" + a == a;
  }

  /** `reprstr`, with the loop over the match groups. */
  method Reprstr(boneName: string) returns (r: string)
    ensures r == SwapSideSuffix(boneName)
  {
    var ml := MatchSide(boneName, 'L');
    var mr := MatchSide(boneName, 'R');
    if ml.Some? || mr.Some? {
      // `ma` is never None here: the exception branch cannot be taken
      var ma := if ml.Some? then ml.value else mr.value;
      var groups := [ma.before, ma.after];
      var tmp := "";
      for gi := 0 to |groups|
        invariant tmp == SuffixEach(groups[..gi])
      {
        SuffixEachSnoc(groups, gi);
        tmp := tmp + groups[gi] + "_";
      }
      assert groups[..2] == groups;
      SuffixEachTwo(ma.before, ma.after);
      tmp := tmp + (if mr.Some? then "R" else "L");
      return tmp;
    }
    return boneName;
  }

  // ---------------------------------------------------------------------
  // What `reprstr` does, stated on the name itself
  // ---------------------------------------------------------------------

  lemma {:induction false} FirstLineWhole(s: string)
    requires NoNewline(s)
    ensures FirstLine(s) == s
  {
    if s != [] {
      FirstLineWhole(s[1..]);
    }
  }

  lemma FirstLineMarker(s: string, i: int, side: char)
    requires MarkerAt(FirstLine(s), i, side)
    ensures MarkerAt(s, i, side)
  {
    var line := FirstLine(s);
    assert line[i] == s[i] && line[i + 1] == s[i + 1] && line[i + 2] == s[i + 2];
  }

  /** `LastMarkerBelow` finds the last marker below `n`, and nothing when there is none. */
  lemma {:induction false} LastMarkerBelowSpec(s: string, side: char, n: nat)
    ensures match LastMarkerBelow(s, side, n)
      case None => forall j :: 0 <= j < n ==> !MarkerAt(s, j, side)
      case Some(i) => i < n && MarkerAt(s, i, side) && forall j :: i < j < n ==> !MarkerAt(s, j, side)
    decreases n
  {
    if n > 0 && !MarkerAt(s, n - 1, side) {
      LastMarkerBelowSpec(s, side, n - 1);
    }
  }

  /** On a one-line name the match splits at the last marker, and there is none without a marker. */
  lemma MatchAtLastMarker(name: string, side: char)
    requires NoNewline(name)
    ensures MatchSide(name, side).None? <==> !HasMarker(name, side)
    ensures forall i :: MarkerAt(name, i, side) && (forall j :: i < j < |name| ==> !MarkerAt(name, j, side)) ==>
      MatchSide(name, side) == Some(Groups(name[..i], name[i + 3..]))
  {
    FirstLineWhole(name);
    LastMarkerBelowSpec(name, side, |name|);
  }

  /** A name without `_L_` and `_R_` comes back unchanged (a newline anywhere does not alter this). */
  lemma NoMarkerUnchanged(name: string)
    requires !HasMarker(name, 'L') && !HasMarker(name, 'R')
    ensures SwapSideSuffix(name) == name
  {
    var line := FirstLine(name);
    LastMarkerBelowSpec(line, 'L', |line|);
    LastMarkerBelowSpec(line, 'R', |line|);
    if MatchSide(name, 'L').Some? {
      var i := LastMarkerBelow(line, 'L', |line|).value;
      FirstLineMarker(name, i, 'L');
    }
    if MatchSide(name, 'R').Some? {
      var i := LastMarkerBelow(line, 'R', |line|).value;
      FirstLineMarker(name, i, 'R');
    }
  }

  /**
    With markers of one side only, `Prefix_X_Suffix` becomes
    `Prefix_Suffix_X`, split at the last `_X_`.
  */
  lemma OneSideSplit(name: string, i: int, side: char)
    requires side == 'L' || side == 'R'
    requires NoNewline(name)
    requires MarkerAt(name, i, side) && forall j :: i < j < |name| ==> !MarkerAt(name, j, side)
    requires !HasMarker(name, if side == 'L' then 'R' else 'L')
    ensures SwapSideSuffix(name) == name[..i] + "_" + name[i + 3..] + "_" + [side]
  {
    MatchAtLastMarker(name, 'L');
    MatchAtLastMarker(name, 'R');
  }

  /** With `_R_` present the side letter is `R`, even though the split stays at the last `_L_`. */
  lemma RightSideWins(name: string, i: int)
    requires NoNewline(name)
    requires MarkerAt(name, i, 'L') && forall j :: i < j < |name| ==> !MarkerAt(name, j, 'L')
    requires HasMarker(name, 'R')
    ensures SwapSideSuffix(name) == name[..i] + "_" + name[i + 3..] + "_R"
  {
    MatchAtLastMarker(name, 'L');
    MatchAtLastMarker(name, 'R');
  }

  /** A match on a one-line name leaves out exactly the three marker characters. */
  lemma MatchLength(name: string, side: char)
    requires NoNewline(name) && MatchSide(name, side).Some?
    ensures |MatchSide(name, side).value.before| + |MatchSide(name, side).value.after| + 3 == |name|
  {
    FirstLineWhole(name);
  }

  /** On a one-line name the rewrite keeps the length, and a rewritten name ends in `_R` exactly when `_R_` occurs, else in `_L`. */
  lemma SwapShape(name: string)
    requires NoNewline(name)
    ensures |SwapSideSuffix(name)| == |name|
    ensures HasMarker(name, 'L') || HasMarker(name, 'R') ==>
      var r := SwapSideSuffix(name);
      |r| >= 2 && r[|r| - 2] == '_' && (r[|r| - 1] == 'R' <==> HasMarker(name, 'R'))
      && (r[|r| - 1] == 'L' <==> !HasMarker(name, 'R'))
  {
    MatchAtLastMarker(name, 'L');
    MatchAtLastMarker(name, 'R');
    var ml := MatchSide(name, 'L');
    var mr := MatchSide(name, 'R');
    if ml.None? && mr.None? {
      NoMarkerUnchanged(name);
    } else {
      var side := if ml.Some? then 'L' else 'R';
      var g := MatchSide(name, side).value;
      MatchLength(name, side);
      var tail := if mr.Some? then "R" else "L";
      var r := g.before + "_" + g.after + "_" + tail;
      assert SwapSideSuffix(name) == r;
      assert |r| == |g.before| + |g.after| + 3;
      assert r[|r| - 2] == '_' && r[|r| - 1] == tail[0];
    }
  }

  // ---------------------------------------------------------------------
  // The spring-bone JSON text
  // ---------------------------------------------------------------------

  /** A parsed JSON value; objects are keyed by their member names. */
  datatype Json =
    | JNull
    | JBool(b: bool)
    | JNum(n: real)
    | JStr(s: string)
    | JArr(items: seq<Json>)
    | JObj(fields: map<string, Json>)

  /** The Python exceptions the operator can end in. */
  datatype PyError =
    | KeyError     // a missing dict key or text block
    | TypeError    // indexing or iterating a value of the wrong kind, or `re.match` on a non-string
    | RuntimeError // a dict that grows while it is iterated
    | ValueError   // a text block that is not valid JSON

  const BONES := "bones"
  const COLLIDER_GROUPS := "colliderGroups"

  predicate AllStrings(items: seq<Json>)
  {
    forall k :: 0 <= k < |items| ==> items[k].JStr?
  }

  /** Every element of a list of strings replaced by its `reprstr` image. */
  function SwapStrings(items: seq<Json>): (r: seq<Json>)
    requires AllStrings(items)
    ensures |r| == |items|
  {
    seq(|items|, k requires 0 <= k < |items| => JStr(SwapSideSuffix(items[k].s)))
  }

  /**
    The loop over one list member (`bones` or `colliderGroups`): a list of
    strings is rewritten in place, an empty string or dict loops zero
    times, a non-empty dict grows under its own iteration, anything else
    is a type error.
  */
  function RewriteNameList(v: Json): Result<Json, PyError>
  {
    match v
    case JArr(items) => if AllStrings(items) then Ok(JArr(SwapStrings(items))) else Err(TypeError)
    case JStr(s) => if s == "" then Ok(v) else Err(TypeError)
    case JObj(m) => if |m| == 0 then Ok(v) else Err(RuntimeError)
    case _ => Err(TypeError)
  }

  /** One element of the top-level list: both members looked up and rewritten, `bones` first. */
  function RewriteGroup(d: Json): Result<Json, PyError>
  {
    if !d.JObj? then Err(TypeError)
    else if BONES !in d.fields then Err(KeyError)
    else
      var b := RewriteNameList(d.fields[BONES]);
      if b.Err? then Err(b.error)
      else
        var m := d.fields[BONES := b.value];
        if COLLIDER_GROUPS !in m then Err(KeyError)
        else
          var c := RewriteNameList(m[COLLIDER_GROUPS]);
          if c.Err? then Err(c.error)
          else Ok(JObj(m[COLLIDER_GROUPS := c.value]))
  }

  /** The elements in order; the first error ends the loop. */
  function RewriteGroups(items: seq<Json>): (r: Result<seq<Json>, PyError>)
    ensures r.Ok? ==> |r.value| == |items|
    decreases |items|
  {
    if items == [] then Ok([])
    else
      var g := RewriteGroup(items[0]);
      if g.Err? then Err(g.error)
      else
        var rest := RewriteGroups(items[1..]);
        if rest.Err? then rest else Ok([g.value] + rest.value)
  }

  /**
    The loop `for jdic in j`: over a list its elements; over an empty dict
    or string nothing; the keys or characters of a non-empty one are
    strings, which cannot be indexed by `"bones"`; other values cannot be
    iterated.
  */
  function RewriteSpringBones(j: Json): Result<Json, PyError>
  {
    match j
    case JArr(items) =>
      var r := RewriteGroups(items);
      if r.Err? then Err(r.error) else Ok(JArr(r.value))
    case JObj(m) => if |m| == 0 then Ok(j) else Err(TypeError)
    case JStr(s) => if s == "" then Ok(j) else Err(TypeError)
    case _ => Err(TypeError)
  }

  /** The list member `v` became `v'`: each name replaced by its image, or an empty value kept. */
  predicate NamesRewritten(v: Json, v': Json)
  {
    || (&& v.JArr? && v'.JArr? && |v'.items| == |v.items|
        && forall i :: 0 <= i < |v.items| ==> v.items[i].JStr? && v'.items[i] == JStr(SwapSideSuffix(v.items[i].s)))
    || (v' == v && (v == JStr("") || v == JObj(map[])))
  }

  /** A member value the loop accepts. */
  predicate NameListShaped(v: Json)
  {
    (v.JArr? && AllStrings(v.items)) || v == JStr("") || v == JObj(map[])
  }

  /** An element the loop accepts: a dict with both members, each of an accepted kind. */
  predicate GroupShaped(d: Json)
  {
    d.JObj? && BONES in d.fields && COLLIDER_GROUPS in d.fields
    && NameListShaped(d.fields[BONES]) && NameListShaped(d.fields[COLLIDER_GROUPS])
  }

  /** Reference description of the texts the rewrite accepts. */
  predicate SpringBonesShaped(j: Json)
  {
    || (j.JArr? && forall k :: 0 <= k < |j.items| ==> GroupShaped(j.items[k]))
    || j == JObj(map[]) || j == JStr("")
  }

  /** The element rewrite succeeds exactly on accepted elements, and then changes only the two members. */
  lemma RewriteGroupSpec(d: Json)
    ensures RewriteGroup(d).Ok? <==> GroupShaped(d)
    ensures RewriteGroup(d).Ok? ==>
      var d' := RewriteGroup(d).value;
      && d'.JObj? && d'.fields.Keys == d.fields.Keys
      && NamesRewritten(d.fields[BONES], d'.fields[BONES])
      && NamesRewritten(d.fields[COLLIDER_GROUPS], d'.fields[COLLIDER_GROUPS])
      && forall key :: key in d.fields && key != BONES && key != COLLIDER_GROUPS ==> d'.fields[key] == d.fields[key]
  {
    assert BONES != COLLIDER_GROUPS;
  }

  /** The loop over the elements succeeds exactly when every element is accepted, rewriting each on its own. */
  lemma {:induction false} RewriteGroupsSpec(items: seq<Json>)
    ensures RewriteGroups(items).Ok? <==> forall k :: 0 <= k < |items| ==> RewriteGroup(items[k]).Ok?
    ensures RewriteGroups(items).Ok? ==>
      forall k :: 0 <= k < |items| ==> RewriteGroups(items).value[k] == RewriteGroup(items[k]).value
    decreases |items|
  {
    if items != [] {
      RewriteGroupsSpec(items[1..]);
      assert forall k :: 1 <= k < |items| ==> items[k] == items[1..][k - 1];
    }
  }

  /** The first element that fails decides the error. */
  lemma {:induction false} RewriteGroupsFirstError(items: seq<Json>, i: int)
    requires 0 <= i < |items| && RewriteGroup(items[i]).Err?
    requires forall k :: 0 <= k < i ==> RewriteGroup(items[k]).Ok?
    ensures RewriteGroups(items) == Err(RewriteGroup(items[i]).error)
    decreases |items|
  {
    if i > 0 {
      assert forall k :: 0 <= k < i - 1 ==> items[1..][k] == items[k + 1];
      RewriteGroupsFirstError(items[1..], i - 1);
    }
  }

  /**
    The rewrite succeeds exactly on accepted texts.  Then a list keeps its
    length and order, each element keeps its keys and other members, and
    each name in `bones` and `colliderGroups` is replaced by its image.
  */
  lemma RewriteSpringBonesSpec(j: Json)
    ensures RewriteSpringBones(j).Ok? <==> SpringBonesShaped(j)
    ensures RewriteSpringBones(j).Ok? && j.JArr? ==>
      var j' := RewriteSpringBones(j).value;
      && j'.JArr? && |j'.items| == |j.items|
      && forall k :: 0 <= k < |j.items| ==>
           var d := j.items[k];
           var d' := j'.items[k];
           && d'.JObj? && d.JObj? && d'.fields.Keys == d.fields.Keys
           && NamesRewritten(d.fields[BONES], d'.fields[BONES])
           && NamesRewritten(d.fields[COLLIDER_GROUPS], d'.fields[COLLIDER_GROUPS])
           && forall key :: key in d.fields && key != BONES && key != COLLIDER_GROUPS ==> d'.fields[key] == d.fields[key]
    ensures RewriteSpringBones(j).Ok? && !j.JArr? ==> RewriteSpringBones(j).value == j
  {
    if j.JArr? {
      RewriteGroupsSpec(j.items);
      forall k | 0 <= k < |j.items|
        ensures RewriteGroup(j.items[k]).Ok? <==> GroupShaped(j.items[k])
      {
        RewriteGroupSpec(j.items[k]);
      }
      if RewriteSpringBones(j).Ok? {
        forall k | 0 <= k < |j.items|
          ensures var d := j.items[k];
            var d' := RewriteSpringBones(j).value.items[k];
            && d'.JObj? && d.JObj? && d'.fields.Keys == d.fields.Keys
            && NamesRewritten(d.fields[BONES], d'.fields[BONES])
            && NamesRewritten(d.fields[COLLIDER_GROUPS], d'.fields[COLLIDER_GROUPS])
            && forall key :: key in d.fields && key != BONES && key != COLLIDER_GROUPS ==> d'.fields[key] == d.fields[key]
        {
          RewriteGroupSpec(j.items[k]);
        }
      }
    }
  }

  /** `jdic[key][i] = reprstr(...)` for every element of one list member, in place. */
  method RewriteNameListInPlace(v: Json) returns (r: Result<Json, PyError>)
    ensures r == RewriteNameList(v)
  {
    match v {
      case JArr(items) =>
        var cur := items;
        for i := 0 to |items|
          invariant |cur| == |items|
          invariant forall k :: 0 <= k < i ==> items[k].JStr? && cur[k] == JStr(SwapSideSuffix(items[k].s))
        {
          if !items[i].JStr? {
            return Err(TypeError);
          }
          var name := Reprstr(items[i].s);
          cur := cur[i := JStr(name)];
        }
        assert cur == SwapStrings(items);
        return Ok(JArr(cur));
      case JStr(s) =>
        if s == "" {
          return Ok(v);
        }
        return Err(TypeError);
      case JObj(m) =>
        if |m| == 0 {
          return Ok(v);
        }
        return Err(RuntimeError);
      case _ =>
        return Err(TypeError);
    }
  }

  /** The body of `for jdic in j`: both members of one element, `bones` first. */
  method RewriteGroupInPlace(d: Json) returns (r: Result<Json, PyError>)
    ensures r == RewriteGroup(d)
  {
    if !d.JObj? {
      return Err(TypeError);
    }
    var m := d.fields;
    if BONES !in m {
      return Err(KeyError);
    }
    var b := RewriteNameListInPlace(m[BONES]);
    if b.Err? {
      return Err(b.error);
    }
    m := m[BONES := b.value];
    if COLLIDER_GROUPS !in m {
      return Err(KeyError);
    }
    var c := RewriteNameListInPlace(m[COLLIDER_GROUPS]);
    if c.Err? {
      return Err(c.error);
    }
    m := m[COLLIDER_GROUPS := c.value];
    return Ok(JObj(m));
  }

  /** The loop `for jdic in j` over the parsed text. */
  method RewriteSpringBonesInPlace(j: Json) returns (r: Result<Json, PyError>)
    ensures r == RewriteSpringBones(j)
  {
    match j {
      case JArr(items) =>
        var cur := items;
        for i := 0 to |items|
          invariant |cur| == |items|
          invariant forall k :: 0 <= k < i ==> RewriteGroup(items[k]).Ok? && cur[k] == RewriteGroup(items[k]).value
        {
          var g := RewriteGroupInPlace(items[i]);
          if g.Err? {
            RewriteGroupsFirstError(items, i);
            return Err(g.error);
          }
          cur := cur[i := g.value];
        }
        RewriteGroupsSpec(items);
        assert cur == RewriteGroups(items).value;
        return Ok(JArr(cur));
      case JObj(m) =>
        if |m| == 0 {
          return Ok(j);
        }
        return Err(TypeError);
      case JStr(s) =>
        if s == "" {
          return Ok(j);
        }
        return Err(TypeError);
      case _ =>
        return Err(TypeError);
    }
  }

  // ---------------------------------------------------------------------
  // Human-bone custom properties
  // ---------------------------------------------------------------------

  /** A custom property value of the armature data. */
  datatype PropValue = PString(text: string) | PInt(i: int) | PReal(x: real)

  /** The run of the property loop: the properties when it stopped, and the exception that stopped it. */
  datatype PropsRun = PropsRun(props: map<string, PropValue>, error: Option<PyError>)

  /**
    `for bonename in names: if bonename in data: data[bonename] =
    reprstr(data[bonename])`, in order; `reprstr` of a non-string value
    raises a type error and ends the loop.
  */
  function RewriteProps(props: map<string, PropValue>, names: seq<string>): (r: PropsRun)
    ensures r.props.Keys == props.Keys
    decreases |names|
  {
    if names == [] then PropsRun(props, None)
    else if names[0] !in props then RewriteProps(props, names[1..])
    else match props[names[0]]
      case PString(s) => RewriteProps(props[names[0] := PString(SwapSideSuffix(s))], names[1..])
      case _ => PropsRun(props, Some(TypeError))
  }

  /** Properties not named in the list keep their values. */
  lemma {:induction false} RewritePropsFrame(props: map<string, PropValue>, names: seq<string>)
    ensures forall key :: key in props && key !in names ==> RewriteProps(props, names).props[key] == props[key]
    decreases |names|
  {
    if names != [] {
      var n := names[0];
      if n in props && props[n].PString? {
        RewritePropsFrame(props[n := PString(SwapSideSuffix(props[n].text))], names[1..]);
      } else if n !in props {
        RewritePropsFrame(props, names[1..]);
      }
    }
  }

  /**
    When the names are distinct and every named property present holds a
    string, the loop completes and each such property holds the image of
    its old value.
  */
  lemma {:induction false} RewritePropsComplete(props: map<string, PropValue>, names: seq<string>)
    requires forall i, j :: 0 <= i < j < |names| ==> names[i] != names[j]
    requires forall k :: 0 <= k < |names| && names[k] in props ==> props[names[k]].PString?
    ensures RewriteProps(props, names).error == None
    ensures forall key :: key in props && key in names ==>
      RewriteProps(props, names).props[key] == PString(SwapSideSuffix(props[key].text))
    decreases |names|
  {
    if names != [] {
      var n := names[0];
      var props' := if n in props then props[n := PString(SwapSideSuffix(props[n].text))] else props;
      assert forall k :: 0 <= k < |names[1..]| ==> names[1..][k] == names[k + 1];
      RewritePropsComplete(props', names[1..]);
      RewritePropsFrame(props', names[1..]);
    }
  }

  /** A non-string value under the first name present stops the loop at once, with nothing changed. */
  lemma RewritePropsStops(props: map<string, PropValue>, names: seq<string>)
    requires names != [] && names[0] in props && !props[names[0]].PString?
    ensures RewriteProps(props, names) == PropsRun(props, Some(TypeError))
  {
  }

  // ---------------------------------------------------------------------
  // Adding human-bone properties
  // ---------------------------------------------------------------------

  /** `if name not in armature: armature[name] = ""` for each name in order. */
  function AddMissing(props: map<string, PropValue>, names: seq<string>): (r: map<string, PropValue>)
    decreases |names|
  {
    if names == [] then props
    else AddMissing(if names[0] in props then props else props[names[0] := PString("")], names[1..])
  }

  /** Only missing names are added, with the empty string; existing values are never overwritten. */
  lemma {:induction false} AddMissingSpec(props: map<string, PropValue>, names: seq<string>)
    ensures var r := AddMissing(props, names);
      && r.Keys == props.Keys + (set n | n in names)
      && (forall key :: key in props ==> r[key] == props[key])
      && (forall key :: key in r && key !in props ==> r[key] == PString(""))
    decreases |names|
  {
    if names != [] {
      var props' := if names[0] in props then props else props[names[0] := PString("")];
      AddMissingSpec(props', names[1..]);
      var r := AddMissing(props, names);
      assert r.Keys == props.Keys + (set n | n in names) by {
        forall key | key in r.Keys
          ensures key in props.Keys + (set n | n in names)
        {
          if key !in props && key != names[0] {
            var k :| 0 <= k < |names[1..]| && names[1..][k] == key;
            assert names[k + 1] == key;
          }
        }
        forall key | key in (set n | n in names)
          ensures key in r.Keys
        {
          var k :| 0 <= k < |names| && names[k] == key;
          if k > 0 {
            assert names[1..][k - 1] == key;
          }
        }
      }
    }
  }

  /** Adding the same names again changes nothing. */
  lemma AddMissingIdempotent(props: map<string, PropValue>, names: seq<string>)
    ensures AddMissing(AddMissing(props, names), names) == AddMissing(props, names)
  {
    var r := AddMissing(props, names);
    AddMissingSpec(props, names);
    AddMissingSpec(r, names);
    var rr := AddMissing(r, names);
    assert rr.Keys == r.Keys;
    assert forall key :: key in rr ==> rr[key] == r[key];
  }

  // ---------------------------------------------------------------------
  // The Blender data the operators change
  // ---------------------------------------------------------------------

  /** The armature data: its bones' names and its custom properties. */
  class Armature {
    var boneNames: seq<string>
    var props: map<string, PropValue>

    constructor(boneNames: seq<string>, props: map<string, PropValue>)
      ensures this.boneNames == boneNames && this.props == props
    {
      this.boneNames := boneNames;
      this.props := props;
    }
  }

  /** A text block, seen through `json.loads` of its lines: `None` when they are not valid JSON. */
  class TextBlock {
    var content: Option<Json>

    constructor(content: Option<Json>)
      ensures this.content == content
    {
      this.content := content;
    }
  }

  /** The active object: its armature data and its `spring_bone` custom property, a text block's name. */
  class ActiveObject {
    const data: Armature
    const springBone: Option<string>

    constructor(data: Armature, springBone: Option<string>)
      ensures this.data == data && this.springBone == springBone
    {
      this.data := data;
      this.springBone := springBone;
    }
  }

  /** Every name replaced by its `reprstr` image. */
  function SwapAll(names: seq<string>): (r: seq<string>)
    ensures |r| == |names|
  {
    seq(|names|, k requires 0 <= k < |names| => SwapSideSuffix(names[k]))
  }

  /** `for x in data.bones: x.name = reprstr(x.name)`. */
  method RenameBones(a: Armature)
    modifies a
    ensures a.boneNames == SwapAll(old(a.boneNames)) && a.props == old(a.props)
  {
    ghost var names0 := a.boneNames;
    for i := 0 to |a.boneNames|
      invariant |a.boneNames| == |names0| && a.props == old(a.props)
      invariant forall k :: 0 <= k < i ==> a.boneNames[k] == SwapSideSuffix(names0[k])
      invariant forall k :: i <= k < |names0| ==> a.boneNames[k] == names0[k]
    {
      var name := Reprstr(a.boneNames[i]);
      a.boneNames := a.boneNames[i := name];
    }
  }

  /** The human-bone property loop, in place on the armature data. */
  method RewriteHumanBoneProps(a: Armature, names: seq<string>) returns (error: Option<PyError>)
    modifies a
    ensures var run := RewriteProps(old(a.props), names);
      a.props == run.props && error == run.error && a.boneNames == old(a.boneNames)
  {
    for i := 0 to |names|
      invariant RewriteProps(old(a.props), names) == RewriteProps(a.props, names[i..])
      invariant a.boneNames == old(a.boneNames)
    {
      assert names[i..][0] == names[i] && names[i..][1..] == names[i + 1..];
      var bonename := names[i];
      if bonename in a.props {
        if !a.props[bonename].PString? {
          return Some(TypeError);
        }
        var image := Reprstr(a.props[bonename].text);
        a.props := a.props[bonename := PString(image)];
      }
    }
    return None;
  }

  /** How an operator's `execute` ended. */
  datatype Status = Finished | Failed(error: PyError)

  /**
    `Bones_rename.execute`.  `texts` stands for `bpy.data.texts`; `humanBones`
    for the concatenated required and defined human-bone names.  An
    exception leaves in place what was already written: the bone names,
    then the text block, then the properties rewritten so far.
  */
  method BonesRename(obj: ActiveObject, texts: map<string, TextBlock>, humanBones: seq<string>)
    returns (status: Status)
    modifies obj.data, texts.Values
    ensures obj.data.boneNames == SwapAll(old(obj.data.boneNames))
    // the text block named by `spring_bone`, if the object has that property
    ensures obj.springBone.Some? && obj.springBone.value !in texts ==>
      status == Failed(KeyError) && obj.data.props == old(obj.data.props)
    ensures obj.springBone.Some? && obj.springBone.value in texts ==>
      var t := texts[obj.springBone.value];
      if old(t.content).None? then
        status == Failed(ValueError) && obj.data.props == old(obj.data.props) && t.content == old(t.content)
      else
        var rewritten := RewriteSpringBones(old(t.content).value);
        if rewritten.Err? then
          status == Failed(rewritten.error) && obj.data.props == old(obj.data.props) && t.content == old(t.content)
        else
          var run := RewriteProps(old(obj.data.props), humanBones);
          t.content == Some(rewritten.value) && obj.data.props == run.props
          && status == (if run.error.Some? then Failed(run.error.value) else Finished)
    ensures obj.springBone.None? ==>
      var run := RewriteProps(old(obj.data.props), humanBones);
      obj.data.props == run.props && status == (if run.error.Some? then Failed(run.error.value) else Finished)
    // no other text block is written
    ensures forall t :: t in texts.Values && (obj.springBone.None? || obj.springBone.value !in texts
                                                || t != texts[obj.springBone.value]) ==>
      t.content == old(t.content)
  {
    RenameBones(obj.data);
    if obj.springBone.Some? {
      if obj.springBone.value !in texts {
        return Failed(KeyError);
      }
      var textblock := texts[obj.springBone.value];
      if textblock.content.None? {
        return Failed(ValueError);
      }
      var j := RewriteSpringBonesInPlace(textblock.content.value);
      if j.Err? {
        return Failed(j.error);
      }
      textblock.content := Some(j.value);
    }
    var error := RewriteHumanBoneProps(obj.data, humanBones);
    if error.Some? {
      return Failed(error.value);
    }
    return Finished;
  }

  /** `Add_VRM_human_bone_custom_property.execute`: the one named property, if it is absent. */
  method AddHumanBoneProperty(a: Armature, boneName: string)
    modifies a
    ensures a.props == AddMissing(old(a.props), [boneName]) && a.boneNames == old(a.boneNames)
  {
    if boneName !in a.props {
      a.props := a.props[boneName := PString("")];
    }
  }

  /**
    The loops of `Add_VRM_require_human_bone_custom_property.execute` and
    `Add_VRM_defined_human_bone_custom_property.execute`, over the required
    or the defined human-bone names.
  */
  method AddHumanBoneProperties(a: Armature, boneNames: seq<string>)
    modifies a
    ensures a.props == AddMissing(old(a.props), boneNames) && a.boneNames == old(a.boneNames)
  {
    for i := 0 to |boneNames|
      invariant AddMissing(old(a.props), boneNames) == AddMissing(a.props, boneNames[i..])
      invariant a.boneNames == old(a.boneNames)
    {
      assert boneNames[i..][0] == boneNames[i] && boneNames[i..][1..] == boneNames[i + 1..];
      if boneNames[i] !in a.props {
        a.props := a.props[boneNames[i] := PString("")];
      }
    }
  }
}
