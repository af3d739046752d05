/** strings.Join, as the logging decorator uses it to render a tag list, and a splitter that
    recovers the list from the rendered text when no tag contains a comma. */
module Strings {

  /** Total length of the elements. */
  function TotalLength(elems: seq<string>): nat
    decreases |elems|
  {
    if elems == [] then 0 else |elems[0]| + TotalLength(elems[1..])
  }

  /** strings.Join: the elements with sep between neighbours; "" for no elements. */
  function Join(elems: seq<string>, sep: string): (s: string)
    ensures elems == [] ==> s == ""
    decreases |elems|
  {
    if |elems| == 0 then ""
    else if |elems| == 1 then elems[0]
    else elems[0] + sep + Join(elems[1..], sep)
  }

  /** The joined text is exactly the elements plus one separator between each two. */
  lemma {:induction false} JoinLength(elems: seq<string>, sep: string)
    requires elems != []
    ensures |Join(elems, sep)| == TotalLength(elems) + |sep| * (|elems| - 1)
    decreases |elems|
  {
    if |elems| > 1 {
      JoinLength(elems[1..], sep);
      assert |sep| * (|elems| - 1) == |sep| + |sep| * (|elems[1..]| - 1);
    }
  }

  /** The joined text begins with the first element. */
  lemma JoinStartsWithFirst(elems: seq<string>, sep: string)
    requires elems != []
    ensures Join(elems, sep)[..|elems[0]|] == elems[0]
  {
  }

  predicate NoComma(s: string) {
    forall i :: 0 <= i < |s| ==> s[i] != ','
  }

  /** The pieces of s between commas (one piece more than there are commas). */
  function Fields(s: string): (r: seq<string>)
    ensures |r| > 0
    decreases |s|
  {
    if s == [] then [""]
    else if s[0] == ',' then [""] + Fields(s[1..])
    else
      var rest := Fields(s[1..]);
      [[s[0]] + rest[0]] + rest[1..]
  }

  /** Every element with a single blank in front of it. */
  function Spaced(elems: seq<string>): (r: seq<string>)
    ensures |r| == |elems|
  {
    if elems == [] then [] else [" " + elems[0]] + Spaced(elems[1..])
  }

  /** Every piece with its first character (the blank of ", ") dropped. */
  function Unspaced(pieces: seq<string>): seq<string> {
    if pieces == [] then []
    else [if pieces[0] == [] then [] else pieces[0][1..]] + Unspaced(pieces[1..])
  }

  /** Reads a ", "-joined list back. */
  function Unjoin(s: string): seq<string> {
    var f := Fields(s);
    [f[0]] + Unspaced(f[1..])
  }

  lemma {:induction false} FieldsOfPrefix(t: string, x: string)
    requires NoComma(t)
    ensures Fields(t + x) == [t + Fields(x)[0]] + Fields(x)[1..]
    decreases |t|
  {
    if t == [] {
      assert t + x == x && t + Fields(x)[0] == Fields(x)[0];
      assert [Fields(x)[0]] + Fields(x)[1..] == Fields(x);
    } else {
      assert (t + x)[0] == t[0] && (t + x)[1..] == t[1..] + x;
      FieldsOfPrefix(t[1..], x);
      var rest := Fields(t[1..] + x);
      assert rest[0] == t[1..] + Fields(x)[0] && rest[1..] == Fields(x)[1..];
      assert t[0] != ',';
      assert Fields(t + x) == [[t[0]] + rest[0]] + rest[1..];
      assert [t[0]] + rest[0] == t + Fields(x)[0];
    }
  }

  lemma {:induction false} FieldsOfJoin(elems: seq<string>)
    requires |elems| > 0
    requires forall k :: 0 <= k < |elems| ==> NoComma(elems[k])
    ensures Fields(Join(elems, ", ")) == [elems[0]] + Spaced(elems[1..])
    decreases |elems|
  {
    if |elems| == 1 {
      FieldsOfPrefix(elems[0], "");
      assert elems[0] + "" == elems[0];
    } else {
      var rest := Join(elems[1..], ", ");
      FieldsOfJoin(elems[1..]);
      FieldsOfPrefix(" ", rest);
      assert Fields(" " + rest) == Spaced(elems[1..]);
      var x := ", " + rest;
      assert x[1..] == " " + rest;
      assert Fields(x) == [""] + Spaced(elems[1..]);
      assert Join(elems, ", ") == elems[0] + x;
      FieldsOfPrefix(elems[0], x);
      assert elems[0] + "" == elems[0];
    }
  }

  lemma {:induction false} UnspacedSpaced(elems: seq<string>)
    ensures Unspaced(Spaced(elems)) == elems
  {
    if elems != [] {
      assert (" " + elems[0])[1..] == elems[0];
      UnspacedSpaced(elems[1..]);
    }
  }

  /** A non-empty list of comma-free tags can be read back from its ", "-joined form.
      (The empty list and the list holding one empty tag both render as "".) */
  lemma UnjoinJoin(elems: seq<string>)
    requires |elems| > 0
    requires forall k :: 0 <= k < |elems| ==> NoComma(elems[k])
    ensures Unjoin(Join(elems, ", ")) == elems
  {
    FieldsOfJoin(elems);
    UnspacedSpaced(elems[1..]);
  }
}
