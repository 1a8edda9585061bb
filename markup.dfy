/**
 * The markup document a bitmap-font descriptor is read from, reduced to plain data.
 *
 * An element is a record of its attributes: those that parse as integers, and those
 * read as text.  Repeated children (the `page` elements under `pages`, the `char`
 * elements under `chars`) are an ordered list of such records, and the element pointer
 * the importer walks with first-child / next-sibling steps is an index into that list,
 * `None` standing for the null pointer.
 */
module Markup {
  import opened Options

  datatype Element = Element(ints: map<string, int>, strs: map<string, string>)

  /** Integer attribute lookup; a missing attribute reads as 0, the markup parser's default. */
  function IntAttribute(e: Element, name: string): (v: int)
  {
    if name in e.ints then e.ints[name] else 0
  }

  /** Cursor on the first element of a list of siblings, or null when there is none. */
  function FirstChildElement(elems: seq<Element>): Option<nat>
  {
    if |elems| == 0 then None else Some(0)
  }

  /** Cursor on the sibling after the one at `cur`, or null after the last one. */
  function NextSiblingElement(elems: seq<Element>, cur: nat): Option<nat>
  {
    if cur + 1 < |elems| then Some(cur + 1) else None
  }

  /** The cursor after the first-child step and `steps` next-sibling steps.
      Stepping on from null is not something the importer can do; it stays null here. */
  function CursorAt(elems: seq<Element>, steps: nat): Option<nat>
  {
    if steps == 0 then FirstChildElement(elems)
    else match CursorAt(elems, steps - 1)
      case None => None
      case Some(cur) => NextSiblingElement(elems, cur)
  }

  /** After `steps` steps the cursor is on element `steps` if the list is that long,
      and null otherwise. */
  lemma {:induction false} CursorAtIndex(elems: seq<Element>, steps: nat)
    ensures CursorAt(elems, steps) == if steps < |elems| then Some(steps) else None
  {
    if steps > 0 {
      CursorAtIndex(elems, steps - 1);
    }
  }

  /** Splits `s` at every `sep`; the pieces in order, empty pieces included (a trailing
      separator leaves an empty last piece).  This is the split assumed for `parse<int>`. */
  function Split(s: string, sep: char): (parts: seq<string>)
    ensures |parts| >= 1
    ensures forall i :: 0 <= i < |parts| ==> sep !in parts[i]
    decreases |s|
  {
    if |s| == 0 then [""]
    else
      var rest := Split(s[1..], sep);
      if s[0] == sep then [""] + rest
      else [[s[0]] + rest[0]] + rest[1..]
  }

  /** Joins the pieces with `sep` between neighbours. */
  function Join(parts: seq<string>, sep: char): string
    requires |parts| >= 1
  {
    if |parts| == 1 then parts[0] else parts[0] + [sep] + Join(parts[1..], sep)
  }

  /** Joining the pieces of a split gives back the text. */
  lemma {:induction false} JoinSplit(s: string, sep: char)
    ensures Join(Split(s, sep), sep) == s
  {
    if |s| > 0 {
      JoinSplit(s[1..], sep);
      var rest := Split(s[1..], sep);
      if s[0] == sep {
        assert Split(s, sep)[1..] == rest;
      } else {
        var parts := Split(s, sep);
        if |rest| == 1 {
          assert parts == [[s[0]] + rest[0]];
        } else {
          assert parts[1..] == rest[1..];
          assert Join(rest, sep) == rest[0] + [sep] + Join(rest[1..], sep);
        }
      }
    }
  }

  /** Splitting a join of separator-free pieces gives back the pieces. */
  lemma {:induction false} SplitJoin(parts: seq<string>, sep: char)
    requires |parts| >= 1
    requires forall i :: 0 <= i < |parts| ==> sep !in parts[i]
    ensures Split(Join(parts, sep), sep) == parts
  {
    if |parts| == 1 {
      SplitPiece(parts[0], sep);
    } else {
      SplitJoin(parts[1..], sep);
      SplitPrefix(parts[0], Join(parts[1..], sep), sep);
      assert [parts[0]] + parts[1..] == parts;
    }
  }

  /** The padding text "2,3,4,5" splits into its four items. */
  lemma SplitPaddingExample()
    ensures Split("2,3,4,5", ',') == ["2", "3", "4", "5"]
  {
    SplitJoin(["2", "3", "4", "5"], ',');
    assert Join(["2", "3", "4", "5"], ',') == "2,3,4,5";
  }

  /** A separator-free text is one piece. */
  lemma {:induction false} SplitPiece(s: string, sep: char)
    requires sep !in s
    ensures Split(s, sep) == [s]
    decreases |s|
  {
    if |s| > 0 {
      SplitPiece(s[1..], sep);
      assert [s[0]] + s[1..] == s;
    }
  }

  /** A separator-free text followed by a separator becomes the first piece. */
  lemma {:induction false} SplitPrefix(p: string, t: string, sep: char)
    requires sep !in p
    ensures Split(p + [sep] + t, sep) == [p] + Split(t, sep)
    decreases |p|
  {
    if |p| == 0 {
      assert p + [sep] + t == [sep] + t;
      assert ([sep] + t)[1..] == t;
    } else {
      SplitPrefix(p[1..], t, sep);
      assert (p + [sep] + t)[1..] == p[1..] + [sep] + t;
      assert [p[0]] + p[1..] == p;
    }
  }
}
