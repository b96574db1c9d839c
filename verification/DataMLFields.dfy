/**
 * DataML struct arrays: field names in an attribute, and the children that hold the fields of the elements.
 *
 * The attribute has every name followed by ';'. The children are in the order of the elements, and within an
 * element in the order of the names.
 */
module DataMLFields {
  import opened Messages
  import opened IndexNumeric
  import DataMLStructure

  const CHILDREN: nat := 0x1_0000_0000

  /** Every name followed by a semicolon. */
  function Joined(names: seq<string>): string {
    if names == [] then "" else names[0] + ";" + Joined(names[1..])
  }

  ghost predicate NoSemicolon(name: string) {
    forall k :: 0 <= k < |name| ==> name[k] != ';'
  }

  ghost predicate NoSemicolons(names: seq<string>) {
    forall n :: 0 <= n < |names| ==> NoSemicolon(names[n])
  }

  /** The position of the first semicolon, or the length of the text. */
  function Semicolon(text: string): (pos: nat)
    ensures pos <= |text| && (pos < |text| ==> text[pos] == ';')
    ensures forall k :: 0 <= k < pos ==> text[k] != ';'
  {
    if text == "" || text[0] == ';' then 0
    else
      var pos := Semicolon(text[1..]);
      assert forall k :: 0 < k < 1 + pos ==> text[k] == text[1..][k - 1];
      1 + pos
  }

  /** The names that an attribute lists; none if it does not end with a semicolon. */
  function FieldNames(text: string): Option<seq<string>>
    decreases |text|
  {
    if text == "" then Some([])
    else
      var pos := Semicolon(text);
      if pos == |text| then None
      else
        var rest := FieldNames(text[pos + 1..]);
        if rest.None? then None else Some([text[..pos]] + rest.value)
  }

  lemma SemicolonAt(name: string, rest: string)
    requires NoSemicolon(name)
    ensures Semicolon(name + ";" + rest) == |name|
  {
    var text := name + ";" + rest;
    assert forall k :: 0 <= k < |name| ==> text[k] == name[k];
    assert text[|name|] == ';';
  }

  lemma FieldNamesCons(name: string, rest: string)
    requires NoSemicolon(name)
    ensures FieldNames(name + ";" + rest)
         == if FieldNames(rest).None? then None else Some([name] + FieldNames(rest).value)
  {
    SemicolonAt(name, rest);
    var text := name + ";" + rest;
    assert text[..|name|] == name && text[|name| + 1..] == rest;
  }

  /** Reading back what was joined gives the names. */
  lemma {:induction false} FieldNamesInvertsJoined(names: seq<string>)
    requires NoSemicolons(names)
    ensures FieldNames(Joined(names)) == Some(names)
  {
    if names != [] {
      FieldNamesInvertsJoined(names[1..]);
      FieldNamesCons(names[0], Joined(names[1..]));
      assert names == [names[0]] + names[1..];
    }
  }

  lemma JoinedCons(name: string, rest: seq<string>)
    ensures Joined([name] + rest) == name + ";" + Joined(rest)
  {
    assert ([name] + rest)[1..] == rest;
  }

  /** ... and conversely an attribute that can be read is that of the names it lists, which have no semicolon. */
  lemma {:induction false} JoinedInvertsFieldNames(text: string, names: seq<string>)
    requires FieldNames(text) == Some(names)
    ensures NoSemicolons(names) && Joined(names) == text
    decreases |text|
  {
    if text != "" {
      var pos := Semicolon(text);
      var name, rest := text[..pos], names[1..];
      FirstName(text, names);
      hide *;
      JoinedInvertsFieldNames(text[pos + 1..], rest);
      JoinedCons(name, rest);
      assert names == [name] + rest;
      SplitAt(text, pos);
      NoSemicolonCons(name, rest);
    } else {
      assert names == [];
    }
  }

  lemma SplitAt(text: string, pos: nat)
    requires pos < |text| && text[pos] == ';'
    ensures text == text[..pos] + ";" + text[pos + 1..]
  {
  }

  lemma FirstName(text: string, names: seq<string>)
    requires FieldNames(text) == Some(names) && text != ""
    ensures var pos := Semicolon(text);
            && pos < |text| && text[pos] == ';' && names != []
            && names[0] == text[..pos] && NoSemicolon(names[0]) && FieldNames(text[pos + 1..]) == Some(names[1..])
  {
  }

  lemma NoSemicolonCons(name: string, names: seq<string>)
    requires NoSemicolon(name) && NoSemicolons(names)
    ensures NoSemicolons([name] + names)
  {
  }

  /** So the names survive exactly if none of them has a semicolon. */
  lemma NamesSurvive(names: seq<string>)
    ensures FieldNames(Joined(names)) == Some(names) <==> NoSemicolons(names)
  {
    if NoSemicolons(names) {
      FieldNamesInvertsJoined(names);
    }
    if FieldNames(Joined(names)) == Some(names) {
      JoinedInvertsFieldNames(Joined(names), names);
    }
  }

  // ---------------------------------------------------------------------------------- substring search

  ghost predicate OccursAt(text: string, part: string, i: nat) {
    i + |part| <= |text| && text[i..i + |part|] == part
  }

  ghost predicate Occurs(text: string, part: string) {
    exists i: nat :: OccursAt(text, part, i)
  }

  /** A run of names is in a list of names at place k. */
  ghost predicate RunAt(names: seq<string>, run: seq<string>, k: nat) {
    k + |run| <= |names| && names[k..k + |run|] == run
  }

  ghost predicate Run(names: seq<string>, run: seq<string>) {
    exists k: nat :: RunAt(names, run, k)
  }

  lemma NamesOf(name: string, rest: string, other: string, more: string)
    requires NoSemicolon(name) && NoSemicolon(other)
    requires OccursAt(name + ";" + rest, other + ";" + more, 0)
    ensures name == other && OccursAt(rest, more, 0)
  {
    var text, part := name + ";" + rest, other + ";" + more;
    assert forall k :: 0 <= k < |part| ==> text[k] == text[0..|part|][k] == part[k];
    assert forall k :: 0 <= k < |name| ==> text[k] == name[k];
    assert forall k :: 0 <= k < |other| ==> part[k] == other[k];
    assert text[|name|] == ';' && part[|other|] == ';';
    assert |name| == |other|;
    assert name == text[..|name|] == part[..|name|] == other;
    assert rest[0..|more|] == text[|name| + 1..|part|] == part[|name| + 1..] == more;
  }

  /** At the start of a joined list, a joined run occurs exactly if the list starts with the run. */
  lemma {:induction false} PrefixIsRun(names: seq<string>, run: seq<string>)
    requires NoSemicolons(names) && NoSemicolons(run)
    ensures OccursAt(Joined(names), Joined(run), 0) <==> RunAt(names, run, 0)
    decreases |run|
  {
    if run != [] {
      var name, rest := run[0], Joined(run[1..]);
      assert Joined(run) == name + ";" + rest;
      if names != [] {
        PrefixIsRun(names[1..], run[1..]);
        assert Joined(names) == names[0] + ";" + Joined(names[1..]);
        if OccursAt(Joined(names), Joined(run), 0) {
          NamesOf(names[0], Joined(names[1..]), name, rest);
          assert names[0..|run|] == [names[0]] + names[1..][0..|run| - 1];
          assert run == [name] + run[1..];
        }
        if RunAt(names, run, 0) {
          assert names[0] == names[0..|run|][0] == name;
          assert names[1..][0..|run| - 1] == names[0..|run|][1..] == run[1..];
          SamePrefix(names[0], Joined(names[1..]), rest);
        }
      }
    }
  }

  lemma SamePrefix(name: string, rest: string, more: string)
    requires OccursAt(rest, more, 0)
    ensures OccursAt(name + ";" + rest, name + ";" + more, 0)
  {
    var text, part := name + ";" + rest, name + ";" + more;
    assert forall k :: 0 <= k < |more| ==> rest[k] == rest[0..|more|][k];
    assert text[0..|part|] == part;
  }

  /**
   * The search: ";a;b;" occurs in the attribute with a semicolon in front exactly if the names a, b stand next to
   * each other in the list.
   */
  lemma {:induction false} OccursIsRun(names: seq<string>, run: seq<string>)
    requires NoSemicolons(names) && NoSemicolons(run) && run != []
    ensures Occurs(";" + Joined(names), ";" + Joined(run)) <==> Run(names, run)
    decreases |names|
  {
    var text, part := ";" + Joined(names), ";" + Joined(run);
    PrefixIsRun(names, run);
    FrontOccurs(Joined(names), Joined(run));
    if names != [] {
      OccursIsRun(names[1..], run);
      var rest := ";" + Joined(names[1..]);
      assert text == ";" + names[0] + rest;
      LaterOccurs(names[0], rest, part);
      LaterRun(names, run);
    } else {
      JoinedNotEmpty(run);
    }
    assert OccursAt(text, part, 0) <==> RunAt(names, run, 0);
  }

  lemma FrontOccurs(text: string, part: string)
    ensures OccursAt(";" + text, ";" + part, 0) <==> OccursAt(text, part, 0)
  {
    if OccursAt(";" + text, ";" + part, 0) {
      assert text[0..|part|] == (";" + text)[0..|part| + 1][1..] == (";" + part)[1..] == part;
    }
    if OccursAt(text, part, 0) {
      assert (";" + text)[0..|part| + 1] == ";" + text[0..|part|];
    }
  }

  lemma JoinedNotEmpty(names: seq<string>)
    requires names != []
    ensures |Joined(names)| > 0
  {
  }

  /** Past its front, ";a;rest" has an occurrence exactly where ";rest" has one: inside the name there is none. */
  lemma LaterOccurs(name: string, rest: string, part: string)
    requires NoSemicolon(name) && part != "" && part[0] == ';'
    ensures Occurs(";" + name + rest, part) <==> OccursAt(";" + name + rest, part, 0) || Occurs(rest, part)
  {
    var text := ";" + name + rest;
    if i: nat :| OccursAt(text, part, i) {
      if i > 0 {
        assert text[i..i + |part|][0] == text[i] == ';';
        assert forall k :: 0 < k <= |name| ==> text[k] == name[k - 1];
        var j := i - |name| - 1;
        assert rest[j..j + |part|] == text[i..i + |part|];
        assert OccursAt(rest, part, j);
      }
    }
    if j: nat :| OccursAt(rest, part, j) {
      var i := j + |name| + 1;
      assert text[i..i + |part|] == rest[j..j + |part|];
      assert OccursAt(text, part, i);
    }
  }

  lemma LaterRun(names: seq<string>, run: seq<string>)
    requires names != []
    ensures Run(names, run) <==> RunAt(names, run, 0) || Run(names[1..], run)
  {
    if k: nat :| RunAt(names, run, k) {
      if k > 0 {
        assert names[1..][k - 1..k - 1 + |run|] == names[k..k + |run|];
        assert RunAt(names[1..], run, k - 1);
      }
    }
    if k: nat :| RunAt(names[1..], run, k) {
      assert names[k + 1..k + 1 + |run|] == names[1..][k..k + |run|];
      assert RunAt(names, run, k + 1);
    }
  }

  lemma OneName(tag: string)
    ensures Joined([tag]) == tag + ";"
  {
    assert [tag][1..] == [];
    assert tag + ";" + "" == tag + ";";
  }

  /** For a tag without semicolon the search is membership. */
  lemma HasFieldIsMembership(names: seq<string>, tag: string)
    requires NoSemicolons(names) && NoSemicolon(tag)
    ensures Occurs(";" + Joined(names), ";" + tag + ";") <==> tag in names
  {
    OneName(tag);
    assert ";" + tag + ";" == ";" + (tag + ";");
    OccursIsRun(names, [tag]);
    if tag in names {
      var k: nat :| k < |names| && names[k] == tag;
      assert RunAt(names, [tag], k);
    }
    if k: nat :| RunAt(names, [tag], k) {
      assert names[k..k + 1][0] == tag;
    }
  }

  /** Any tag is some names with semicolons between them. */
  lemma TagIsNames(tag: string)
    ensures FieldNames(tag + ";").Some? && FieldNames(tag + ";").value != []
    decreases |tag|
  {
    var text := tag + ";";
    var pos := Semicolon(text);
    assert text[|tag|] == ';';
    if pos < |tag| {
      assert text[pos + 1..] == tag[pos + 1..] + ";";
      TagIsNames(tag[pos + 1..]);
    } else {
      assert text[pos + 1..] == "";
    }
  }

  /** For any tag at all the search is for the names in it, next to each other. */
  lemma HasFieldExactly(names: seq<string>, tag: string)
    requires NoSemicolons(names)
    ensures FieldNames(tag + ";").Some?
    ensures Occurs(";" + Joined(names), ";" + tag + ";") <==> Run(names, FieldNames(tag + ";").value)
  {
    TagIsNames(tag);
    var run := FieldNames(tag + ";").value;
    JoinedInvertsFieldNames(tag + ";", run);
    assert ";" + tag + ";" == ";" + Joined(run);
    OccursIsRun(names, run);
  }

  /** So with a semicolon in it a tag can be found that is no field. */
  lemma FoundButNoField()
    ensures Occurs(";" + Joined(["a", "b"]), ";" + "a;b" + ";") && "a;b" !in ["a", "b"]
  {
    assert ["a", "b"][1..] == ["b"];
    OneName("b");
    assert Joined(["a", "b"]) == "a" + ";" + "b;" == "a;b;";
    var text := ";" + Joined(["a", "b"]);
    assert text == ";" + "a;b" + ";";
    assert text[0..0 + |text|] == text;
    assert OccursAt(text, ";" + "a;b" + ";", 0);
  }

  // ------------------------------------------------------------------------------------- struct nodes

  /** The children are numbered by element and field, one to one. */
  lemma ChildNumbers(fields: nat, count: nat, index: nat, n: nat, index': nat, n': nat)
    requires index < count && index' < count && n < fields && n' < fields
    ensures index * fields + n < count * fields
    ensures index * fields + n == index' * fields + n' <==> index == index' && n == n'
  {
    Nested(fields, count, n, index);
    if index * fields + n == index' * fields + n' {
      SameSplit(fields, n, n', index, index');
    }
  }

  lemma EveryChildNumbered(fields: nat, count: nat, child: nat)
    requires child < count * fields
    ensures fields > 0 && child / fields < count && child % fields < fields
    ensures child == (child / fields) * fields + child % fields
  {
    assert fields > 0;
    Quotient(child, fields, count);
  }

  class Element {
    constructor () {
    }
  }

  datatype FieldOutcome = Found(child: Element) | NotStruct | BadNames | NotFound | IndexOutOfRange | NoChild
                        | NotScalarStruct | AlreadyExists

  class StructNode {
    var isStruct: bool
    var count: nat
    var attribute: string
    var children: seq<Element>

    constructor ()
      ensures !isStruct && children == []
    {
      isStruct, count, attribute, children := false, 0, "", [];
    }

    /** The node is a struct array of `count` elements with these fields. */
    ghost predicate Has(names: seq<string>)
      reads this
    {
      && isStruct && NoSemicolons(names) && attribute == Joined(names)
      && |children| == count * |names|
      && forall i, j :: 0 <= i < j < |children| ==> children[i] != children[j]
    }

    /** The child that holds a field of an element. */
    ghost function Child(names: seq<string>, index: nat, n: nat): Element
      requires Has(names) && index < count && n < |names|
      reads this
    {
      ChildNumbers(|names|, count, index, n, index, n);
      children[index * |names| + n]
    }

    /** None is the error that the node is no struct. */
    method HasField(tag: string) returns (found: Option<bool>)
      ensures found == if isStruct then Some(Occurs(";" + attribute, ";" + tag + ";")) else None
    {
      if !isStruct {
        return None;
      }
      var occurs := Find(";" + attribute, ";" + tag + ";");
      return Some(occurs);
    }

    /** None is the error that the node is no struct, or that its attribute is malformed. */
    method GetFieldNames() returns (names: Option<seq<string>>)
      ensures names == if isStruct then FieldNames(attribute) else None
    {
      if !isStruct {
        return None;
      }
      var fns, list: seq<string> := attribute, [];
      FollowingMore([], "", FieldNames(attribute));
      while |fns| != 0
        invariant FieldNames(attribute) == Following(list, FieldNames(fns))
        decreases |fns|
      {
        var pos := FindSemicolon(fns);
        if pos == |fns| {
          return None;
        }
        FollowingMore(list, fns[..pos], FieldNames(fns[pos + 1..]));
        list := list + [fns[..pos]];
        fns := fns[pos + 1..];
      }
      FollowingMore(list, "", FieldNames(fns));
      return Some(list);
    }

    method GetField(tag: string, index: nat) returns (outcome: FieldOutcome)
      ensures outcome == NotStruct <==> !isStruct
      ensures isStruct ==> (outcome == BadNames <==> FieldNames(attribute).None?)
      ensures isStruct && FieldNames(attribute).Some? ==>
                var names := FieldNames(attribute).value;
                && (outcome == NotFound <==> tag !in names)
                && (outcome == IndexOutOfRange <==> tag in names && index >= count)
                && (tag in names && index < count ==>
                      exists n :: FirstPlace(names, tag, n) && outcome ==
                        if index * |names| + n < |children| then Found(children[index * |names| + n]) else NoChild)
    {
      if !isStruct {
        return NotStruct;
      }
      var fn := GetFieldNames();
      if fn.None? {
        return BadNames;
      }
      var nf := |fn.value|;
      var n := Place(fn.value, tag);
      if n == nf {
        return NotFound;
      }
      if index >= count {
        return IndexOutOfRange;
      }
      var mindex := index * nf + n;
      assert FirstPlace(fn.value, tag, n);
      return if mindex < |children| then Found(children[mindex]) else NoChild;
    }

    /** Adds a field to a scalar struct: all earlier fields keep their children. */
    method AddField(tag: string) returns (outcome: FieldOutcome)
      modifies this
      ensures outcome == NotStruct <==> !old(isStruct)
      ensures outcome == NotScalarStruct <==> old(isStruct) && old(count) != 1
      ensures old(isStruct) && old(count) == 1 ==> (outcome == BadNames <==> FieldNames(old(attribute)).None?)
      ensures old(isStruct) && old(count) == 1 && FieldNames(old(attribute)).Some? ==>
                if tag in FieldNames(old(attribute)).value then outcome == AlreadyExists else outcome.Found?
      ensures isStruct == old(isStruct) && count == old(count)
      ensures !outcome.Found? ==> attribute == old(attribute) && children == old(children)
      ensures outcome.Found? ==>
                && fresh(outcome.child) && children == old(children) + [outcome.child]
                && attribute == Joined(FieldNames(old(attribute)).value + [tag])
      ensures outcome.Found? && NoSemicolon(tag) && old(Has(FieldNames(attribute).value)) ==>
                var names := FieldNames(old(attribute)).value;
                && Has(names + [tag]) && Child(names + [tag], 0, |names|) == outcome.child
                && forall n :: 0 <= n < |names| ==> Child(names + [tag], 0, n) == old(Child(names, 0, n))
    {
      hide Joined, FieldNames;
      if !isStruct {
        return NotStruct;
      }
      if count != 1 {
        return NotScalarStruct;
      }
      var fn := GetFieldNames();
      if fn.None? {
        return BadNames;
      }
      var n := Place(fn.value, tag);
      if n < |fn.value| {
        return AlreadyExists;
      }
      attribute := Join(fn.value + [tag]);
      var child := new Element();
      children := children + [child];
      return Found(child);
    }

    /** The elements are counted in 64 bits, their children in 32. */
    method BecomeStruct(dims: seq<nat>, names: seq<string>)
      modifies this
      ensures isStruct && count == DataMLStructure.ElementCount(dims) && attribute == Joined(names)
      ensures NoSemicolons(names) ==> (Has(names) <==> count * |names| < CHILDREN)
      ensures |children| == count * |names| % CHILDREN && forall c :: c in children ==> fresh(c)
    {
      hide DataMLStructure.ElementCount;
      isStruct := true;
      count := DataMLStructure.CountElements(dims);
      attribute := Join(names);
      children := NewChildren(count * |names| % CHILDREN);
    }
  }

  method NewChildren(count: nat) returns (children: seq<Element>)
    ensures |children| == count
    ensures forall c :: c in children ==> fresh(c)
    ensures forall i, j :: 0 <= i < j < |children| ==> children[i] != children[j]
  {
    children := [];
    while |children| < count
      invariant |children| <= count
      invariant forall c :: c in children ==> fresh(c)
      invariant forall i, j :: 0 <= i < j < |children| ==> children[i] != children[j]
    {
      var child := new Element();
      children := children + [child];
    }
  }

  /** The first place of a tag among names. */
  ghost predicate FirstPlace(names: seq<string>, tag: string, n: nat) {
    n < |names| && names[n] == tag && tag !in names[..n]
  }

  method Place(names: seq<string>, tag: string) returns (n: nat)
    ensures n <= |names| && (n < |names| <==> tag in names)
    ensures n < |names| ==> FirstPlace(names, tag, n)
  {
    n := 0;
    while n < |names| && names[n] != tag
      invariant n <= |names| && tag !in names[..n]
    {
      n := n + 1;
    }
  }

  lemma JoinedFrom(text: string, names: seq<string>, f: nat)
    requires f < |names|
    ensures text + Joined(names[f..]) == text + names[f] + ";" + Joined(names[f + 1..])
  {
    var rest := Joined(names[f + 1..]);
    assert names[f..][1..] == names[f + 1..];
    assert text + (names[f] + ";" + rest) == text + names[f] + ";" + rest;
  }

  method Join(names: seq<string>) returns (text: string)
    ensures text == Joined(names)
  {
    text := "";
    var f := 0;
    assert names[0..] == names && text + Joined(names) == Joined(names);
    assert Joined([]) == "";
    hide Joined;
    while f < |names|
      invariant f <= |names| && text + Joined(names[f..]) == Joined(names)
    {
      JoinedFrom(text, names, f);
      text := text + names[f] + ";";
      f := f + 1;
    }
    assert names[f..] == [] && text + "" == text;
  }

  /** std::string::find, as far as it says whether there is an occurrence. */
  method Find(text: string, part: string) returns (found: bool)
    ensures found <==> Occurs(text, part)
  {
    var i := 0;
    while i + |part| <= |text|
      invariant forall k: nat :: k < i ==> !OccursAt(text, part, k)
    {
      if text[i..i + |part|] == part {
        assert OccursAt(text, part, i);
        return true;
      }
      i := i + 1;
    }
    return false;
  }

  method FindSemicolon(text: string) returns (pos: nat)
    ensures pos == Semicolon(text)
  {
    pos := 0;
    while pos < |text| && text[pos] != ';'
      invariant pos <= |text| && forall k :: 0 <= k < pos ==> text[k] != ';'
    {
      pos := pos + 1;
    }
  }

  ghost function Following(list: seq<string>, rest: Option<seq<string>>): Option<seq<string>> {
    if rest.None? then None else Some(list + rest.value)
  }

  lemma FollowingMore(list: seq<string>, name: string, rest: Option<seq<string>>)
    ensures Following(list, Following([name], rest)) == Following(list + [name], rest)
    ensures Following([], rest) == rest && Following(list, Some([])) == Some(list)
  {
    assert list + [] == list;
    if rest.Some? {
      assert list + ([name] + rest.value) == list + [name] + rest.value && [] + rest.value == rest.value;
    }
  }

  /** A field added to a scalar struct is found, at the end, and every earlier field where it was. */
  lemma AddFieldKeepsFields(names: seq<string>, tag: string, n: nat)
    requires NoSemicolons(names) && NoSemicolon(tag) && tag !in names && n < |names|
    ensures FieldNames(Joined(names + [tag])) == Some(names + [tag])
    ensures FirstPlace(names + [tag], tag, |names|)
    ensures forall name :: FirstPlace(names, name, n) ==> FirstPlace(names + [tag], name, n)
  {
    hide Joined, FieldNames;
    FieldNamesInvertsJoined(names + [tag]);
    assert (names + [tag])[..|names|] == names;
    assert (names + [tag])[..n] == names[..n];
  }
}
