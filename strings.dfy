/**
 * The two string operations the parser performs itself: splitting
 * `DOMAIN\name` at the first backslash (--user) and String.Split on a
 * comma (--explore-exception).
 */
module Strings {
  import opened Wrappers

  /** String.IndexOf(c), with |s| standing for "not found" (-1 in the source). */
  function IndexOf(s: string, c: char): (k: nat)
    ensures k <= |s|
  {
    IndexFrom(s, c, 0)
  }

  /** The scan behind IndexOf: the first position at or after `from` holding c, or |s|. */
  function IndexFrom(s: string, c: char, from: nat): (k: nat)
    requires from <= |s|
    ensures from <= k <= |s|
    decreases |s| - from
  {
    if from == |s| then from
    else if s[from] == c then from
    else IndexFrom(s, c, from + 1)
  }

  /** The scan from `from` finds the first occurrence there: none between, the character at it, |s| exactly when there is none. */
  lemma {:induction false} IndexFromFirst(s: string, c: char, from: nat)
    requires from <= |s|
    ensures var k := IndexFrom(s, c, from);
      && c !in s[from..k]
      && (k < |s| ==> s[k] == c)
      && (k == |s| <==> c !in s[from..])
    decreases |s| - from
  {
    if from < |s| && s[from] != c {
      IndexFromFirst(s, c, from + 1);
      var k := IndexFrom(s, c, from);
      assert s[from..k] == [s[from]] + s[from + 1..k];
      assert s[from..] == [s[from]] + s[from + 1..];
    }
  }

  /** IndexOf finds the first occurrence: none before it, the character at it, and |s| exactly when there is none. */
  lemma IndexOfFirst(s: string, c: char)
    ensures var k := IndexOf(s, c);
      && c !in s[..k]
      && (k < |s| ==> s[k] == c)
      && (k == |s| <==> c !in s)
  {
    IndexFromFirst(s, c, 0);
    assert s[0..] == s;
    assert s[0..IndexOf(s, c)] == s[..IndexOf(s, c)];
  }

  /** The account given to --user: a domain (null when no backslash) and the user name. */
  datatype Account = Account(domain: Option<string>, name: string)

  /** Splits `DOMAIN\name` at the first backslash: IndexOf, then the substrings on either side; without one the whole text is the name. */
  function SplitUser(s: string): Account {
    var pos := IndexOf(s, '\\');
    if pos < |s| then Account(Some(s[..pos]), s[pos + 1..]) else Account(None, s)
  }

  /** The domain is the text before the first backslash and the name the text after it; without a backslash there is no domain. */
  lemma SplitUserParts(s: string)
    ensures var a := SplitUser(s);
      && ('\\' in s ==> a.domain.Some? && s == a.domain.value + "\\" + a.name && '\\' !in a.domain.value)
      && ('\\' !in s ==> a == Account(None, s))
  {
    var pos := IndexOf(s, '\\');
    IndexOfFirst(s, '\\');
    if pos < |s| {
      Around(s, pos);
    }
  }

  /** String.Split(sep): the pieces between separators, empty pieces included. */
  function Split(s: string, sep: char): (parts: seq<string>)
    ensures |parts| > 0
    decreases |s|
  {
    var pos := IndexOf(s, sep);
    if pos == |s| then [s]
    else [s[..pos]] + Split(s[pos + 1..], sep)
  }

  /** No piece of a split holds the separator. */
  lemma {:induction false} SplitPieces(s: string, sep: char)
    ensures forall k :: 0 <= k < |Split(s, sep)| ==> sep !in Split(s, sep)[k]
    decreases |s|
  {
    var pos := IndexOf(s, sep);
    IndexOfFirst(s, sep);
    if pos < |s| {
      SplitPieces(s[pos + 1..], sep);
      SplitAtFirst(s, sep);
      var rest := Split(s[pos + 1..], sep);
      assert forall k :: 0 < k < |Split(s, sep)| ==> Split(s, sep)[k] == rest[k - 1];
    }
  }

  /** String.Join(sep, parts), the inverse of Split. */
  function Join(parts: seq<string>, sep: char): string {
    if |parts| == 0 then ""
    else if |parts| == 1 then parts[0]
    else parts[0] + [sep] + Join(parts[1..], sep)
  }

  /** Joining the pieces of a split with the same separator gives back the text. */
  lemma {:induction false} JoinSplit(s: string, sep: char)
    ensures Join(Split(s, sep), sep) == s
    decreases |s|
  {
    var pos := IndexOf(s, sep);
    if pos < |s| {
      var rest := s[pos + 1..];
      JoinSplit(rest, sep);
      IndexOfFirst(s, sep);
      SplitAtFirst(s, sep);
      Around(s, pos);
      JoinCons(s[..pos], Split(rest, sep), sep);
    }
  }

  /** A text holding the separator splits into the piece before its first occurrence and the split of the rest. */
  lemma SplitAtFirst(s: string, sep: char)
    requires IndexOf(s, sep) < |s|
    ensures var pos := IndexOf(s, sep);
      Split(s, sep) == [s[..pos]] + Split(s[pos + 1..], sep)
  {
  }

  /** A text is the part before a position, the character there and the part after it. */
  lemma Around(s: string, pos: nat)
    requires pos < |s|
    ensures s == s[..pos] + [s[pos]] + s[pos + 1..]
  {
    assert s[pos..] == [s[pos]] + s[pos + 1..];
    assert s == s[..pos] + s[pos..];
  }

  /** Joining a piece in front of at least one more puts the separator between them. */
  lemma JoinCons(first: string, parts: seq<string>, sep: char)
    requires |parts| > 0
    ensures Join([first] + parts, sep) == first + [sep] + Join(parts, sep)
  {
    assert ([first] + parts)[1..] == parts;
  }
}
