/** Splitting a line of the batch file into its columns, as `line.split(",")`
    does for a one-character separator. */
module Columns {

  /** The pieces of s between occurrences of sep, empty pieces included. */
  function Fields(s: string, sep: char): (r: seq<string>)
    ensures |r| >= 1
    ensures forall k :: 0 <= k < |r| ==> sep !in r[k]
  {
    if s == [] then [""]
    else
      var rest := Fields(s[1..], sep);
      if s[0] == sep then [""] + rest
      else [[s[0]] + rest[0]] + rest[1..]
  }

  /** The pieces glued back together with sep between them. */
  function Join(fields: seq<string>, sep: char): string
  {
    if fields == [] then ""
    else if |fields| == 1 then fields[0]
    else fields[0] + [sep] + Join(fields[1..], sep)
  }

  /** Gluing the fields of s back together gives s. */
  lemma {:induction false} JoinFields(s: string, sep: char)
    ensures Join(Fields(s, sep), sep) == s
  {
    if s != [] {
      var rest := Fields(s[1..], sep);
      JoinFields(s[1..], sep);
      if s[0] == sep {
        assert ([""] + rest)[1..] == rest;
      } else {
        var r := [[s[0]] + rest[0]] + rest[1..];
        assert s == [s[0]] + s[1..];
        if |rest| == 1 {
          assert r == [s];
        } else {
          assert r[1..] == rest[1..];
          assert Join(rest, sep) == rest[0] + [sep] + Join(rest[1..], sep);
        }
      }
    }
  }

  /** Splitting a joined line gives back its fields, when none of them holds the separator. */
  lemma {:induction false} FieldsJoin(fields: seq<string>, sep: char)
    requires |fields| >= 1
    requires forall k :: 0 <= k < |fields| ==> sep !in fields[k]
    ensures Fields(Join(fields, sep), sep) == fields
  {
    if |fields| == 1 {
      FieldsOfPlain(fields[0], sep);
    } else {
      FieldsJoin(fields[1..], sep);
      FieldsPrefix(fields[0], Join(fields[1..], sep), sep);
      assert [fields[0]] + fields[1..] == fields;
    }
  }

  /** A string without the separator is one field. */
  lemma {:induction false} FieldsOfPlain(s: string, sep: char)
    requires sep !in s
    ensures Fields(s, sep) == [s]
  {
    if s != [] {
      FieldsOfPlain(s[1..], sep);
      assert [s[0]] + s[1..] == s;
    }
  }

  /** A separator-free prefix followed by the separator becomes the first field. */
  lemma {:induction false} FieldsPrefix(p: string, t: string, sep: char)
    requires sep !in p
    ensures Fields(p + [sep] + t, sep) == [p] + Fields(t, sep)
  {
    if p == [] {
      assert p + [sep] + t == [sep] + t;
      assert ([sep] + t)[1..] == t;
    } else {
      assert (p + [sep] + t)[1..] == p[1..] + [sep] + t;
      FieldsPrefix(p[1..], t, sep);
      assert [p[0]] + p[1..] == p;
    }
  }

  /** The fields with the empty ones at the end removed. */
  function DropTrailingEmpty(fields: seq<string>): (r: seq<string>)
    ensures |r| <= |fields| && r == fields[..|r|]
    ensures r == [] || r[|r| - 1] != ""
    ensures forall k :: |r| <= k < |fields| ==> fields[k] == ""
  {
    if fields != [] && fields[|fields| - 1] == "" then DropTrailingEmpty(fields[..|fields| - 1])
    else fields
  }

  /** Java's String.split with a one-character separator and no limit: a line
      without the separator is returned whole (even when empty); otherwise the
      fields, with trailing empty ones removed. */
  function JavaSplit(s: string, sep: char): (r: seq<string>)
    ensures sep !in s ==> r == [s]
    ensures sep in s ==> |r| <= |Fields(s, sep)| && r == Fields(s, sep)[..|r|]
    ensures sep in s ==> r == [] || r[|r| - 1] != ""
    ensures sep in s ==> forall k :: |r| <= k < |Fields(s, sep)| ==> Fields(s, sep)[k] == ""
  {
    if sep !in s then [s] else DropTrailingEmpty(Fields(s, sep))
  }

  /** Splitting a line built from fields gives back the fields, provided none
      holds the separator and the last is not empty. */
  lemma JavaSplitJoin(fields: seq<string>, sep: char)
    requires |fields| >= 1 && fields[|fields| - 1] != ""
    requires forall k :: 0 <= k < |fields| ==> sep !in fields[k]
    ensures JavaSplit(Join(fields, sep), sep) == fields
  {
    FieldsJoin(fields, sep);
    if sep !in Join(fields, sep) {
      FieldsOfPlain(Join(fields, sep), sep);
    }
  }
}
