/**
 * The string operations the CSV report is built from: Array.prototype.join
 * with a one-character separator, the repeated `+= item + suffix` of a
 * forEach loop, and String.prototype.split as their inverse.
 */
module Text {

  /** fields.join(sep): the fields with one separator between neighbours; "" for no fields. */
  function Join(fields: seq<string>, sep: char): string
  {
    if |fields| == 0 then ""
    else if |fields| == 1 then fields[0]
    else fields[0] + [sep] + Join(fields[1..], sep)
  }

  /** Two fields joined: the first, the separator, the second. */
  lemma JoinPair(a: string, b: string, sep: char)
    ensures Join([a, b], sep) == a + [sep] + b
  {
    assert [a, b][1..] == [b];
  }

  /** s.split(sep): the pieces between separators; one piece when sep does not occur. */
  function Split(s: string, sep: char): (r: seq<string>)
    ensures |r| >= 1
  {
    if |s| == 0 then [""]
    else
      var rest := Split(s[1..], sep);
      if s[0] == sep then [""] + rest
      else [[s[0]] + rest[0]] + rest[1..]
  }

  /** Every item followed by suffix, concatenated: what `items.forEach(x => out += x + suffix)` appends. */
  function Suffixed(items: seq<string>, suffix: string): string
  {
    if |items| == 0 then "" else items[0] + suffix + Suffixed(items[1..], suffix)
  }

  /** No piece holds the separator, so splitting can find the pieces again. */
  predicate FreeOf(fields: seq<string>, sep: char) {
    forall i | 0 <= i < |fields| :: sep !in fields[i]
  }

  /** A character in none of the fields and other than the separator is not in their join. */
  lemma {:induction false} JoinAvoids(fields: seq<string>, sep: char, c: char)
    requires c != sep && FreeOf(fields, c)
    ensures c !in Join(fields, sep)
  {
    if |fields| > 1 {
      JoinAvoids(fields[1..], sep, c);
    }
  }

  /** A string without the separator splits into itself alone. */
  lemma {:induction false} SplitWithoutSeparator(s: string, sep: char)
    requires sep !in s
    ensures Split(s, sep) == [s]
  {
    if |s| > 0 {
      SplitWithoutSeparator(s[1..], sep);
      assert [s[0]] + s[1..] == s;
    }
  }

  /** Splitting stops at the first separator: the piece before it comes first. */
  lemma {:induction false} SplitAtFirst(f: string, sep: char, t: string)
    requires sep !in f
    ensures Split(f + [sep] + t, sep) == [f] + Split(t, sep)
  {
    var s := f + [sep] + t;
    if |f| == 0 {
      assert s[1..] == t;
    } else {
      SplitAtFirst(f[1..], sep, t);
      assert s[1..] == f[1..] + [sep] + t;
      assert [f[0]] + f[1..] == f;
    }
  }

  /** Splitting a join on the same separator gives the fields back. */
  lemma {:induction false} SplitJoin(fields: seq<string>, sep: char)
    requires |fields| >= 1 && FreeOf(fields, sep)
    ensures Split(Join(fields, sep), sep) == fields
  {
    if |fields| == 1 {
      SplitWithoutSeparator(fields[0], sep);
    } else {
      SplitJoin(fields[1..], sep);
      SplitAtFirst(fields[0], sep, Join(fields[1..], sep));
      assert [fields[0]] + fields[1..] == fields;
    }
  }

  /** Appending one more item appends that item and the suffix. */
  lemma {:induction false} SuffixedSnoc(items: seq<string>, x: string, suffix: string)
    ensures Suffixed(items + [x], suffix) == Suffixed(items, suffix) + x + suffix
  {
    if |items| > 0 {
      SuffixedSnoc(items[1..], x, suffix);
      assert (items + [x])[1..] == items[1..] + [x];
    }
  }

  /** Suffixed distributes over concatenation of the item lists. */
  lemma {:induction false} SuffixedAppend(a: seq<string>, b: seq<string>, suffix: string)
    ensures Suffixed(a + b, suffix) == Suffixed(a, suffix) + Suffixed(b, suffix)
  {
    if |a| > 0 {
      SuffixedAppend(a[1..], b, suffix);
      assert (a + b)[1..] == a[1..] + b;
    } else {
      assert a + b == b;
    }
  }

  /** Terminating every line with sep is joining the lines and one empty line with sep. */
  lemma {:induction false} SuffixedIsJoin(lines: seq<string>, sep: char)
    ensures Suffixed(lines, [sep]) == Join(lines + [""], sep)
  {
    if |lines| > 0 {
      SuffixedIsJoin(lines[1..], sep);
      assert (lines + [""])[1..] == lines[1..] + [""];
    }
  }

  /**
   * Text made of separator-terminated lines splits into those lines and a
   * final empty piece after the last separator.
   */
  lemma SplitTerminated(lines: seq<string>, sep: char)
    requires FreeOf(lines, sep)
    ensures Split(Suffixed(lines, [sep]), sep) == lines + [""]
  {
    SuffixedIsJoin(lines, sep);
    SplitJoin(lines + [""], sep);
  }
}
