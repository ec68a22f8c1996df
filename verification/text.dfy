/** The string operations src/mapsheet.js relies on: `toLowerCase`,
    `replace(/ +/, '')` (NOT global: only the first run of spaces goes),
    `replace('#', '')` (only the first `#` goes) and the `||` fallback
    between string-or-undefined values. */
module Text {
  import opened Wrappers

  predicate IsUpper(c: char) {
    'A' <= c <= 'Z'
  }

  /** `toLowerCase` on one character (ASCII letters only). */
  function LowerChar(c: char): (d: char)
    ensures !IsUpper(d)
    ensures !IsUpper(c) ==> d == c
    ensures d == ' ' <==> c == ' '
  {
    if IsUpper(c) then (c as int + 32) as char else c
  }

  /** `toLowerCase`: every character lowered in place. */
  function ToLower(s: string): (r: string)
    ensures |r| == |s|
    ensures forall i :: 0 <= i < |s| ==> r[i] == LowerChar(s[i])
  {
    if s == [] then [] else [LowerChar(s[0])] + ToLower(s[1..])
  }

  /** Lower-casing twice is lower-casing once. */
  lemma ToLowerIdempotent(s: string)
    ensures ToLower(ToLower(s)) == ToLower(s)
  {
  }

  predicate AllSpaces(s: string) {
    forall i :: 0 <= i < |s| ==> s[i] == ' '
  }

  /** Drops the spaces at the front of `s`. */
  function DropLeadingSpaces(s: string): (r: string)
    ensures |r| <= |s|
    ensures r == [] || r[0] != ' '
  {
    if s != [] && s[0] == ' ' then DropLeadingSpaces(s[1..]) else s
  }

  /** `s.replace(/ +/, '')`: the leftmost run of one or more spaces, taken
      greedily, is removed; later runs stay. */
  function RemoveFirstSpaceRun(s: string): (r: string)
    ensures ' ' !in s ==> r == s
    ensures |r| <= |s|
  {
    if s == [] then []
    else if s[0] == ' ' then DropLeadingSpaces(s)
    else [s[0]] + RemoveFirstSpaceRun(s[1..])
  }

  /** The full characterisation of the regex replacement: split `s` into a
      space-free prefix, a non-empty run of spaces, and a rest that does not
      start with a space; the result is the prefix followed by the rest. */
  lemma {:induction false} RemoveFirstSpaceRunSplits(prefix: string, run: string, rest: string)
    requires ' ' !in prefix
    requires run != [] && AllSpaces(run)
    requires rest == [] || rest[0] != ' '
    ensures RemoveFirstSpaceRun(prefix + run + rest) == prefix + rest
  {
    AppendAssoc(prefix, run, rest);
    var tail := run + rest;
    if prefix == [] {
      assert prefix + tail == tail;
      assert tail[0] == ' ';
      DropRunThenRest(run, rest);
    } else {
      ConsSplit(prefix, tail);
      ConsSplit(prefix, rest);
      assert prefix[0] != ' ';
      assert ' ' !in prefix[1..];
      RemoveFirstSpaceRunSplits(prefix[1..], run, rest);
      AppendAssoc(prefix[1..], run, rest);
    }
  }

  /** A non-empty string followed by `tail` is its head followed by the rest. */
  lemma ConsSplit(s: string, tail: string)
    requires s != []
    ensures s + tail == [s[0]] + (s[1..] + tail)
    ensures (s + tail)[0] == s[0] && (s + tail)[1..] == s[1..] + tail
  {
    assert s == [s[0]] + s[1..];
  }

  lemma {:induction false} DropRunThenRest(run: string, rest: string)
    requires AllSpaces(run)
    requires rest == [] || rest[0] != ' '
    ensures DropLeadingSpaces(run + rest) == rest
  {
    if run != [] {
      assert (run + rest)[1..] == run[1..] + rest;
      DropRunThenRest(run[1..], rest);
    } else {
      assert run + rest == rest;
    }
  }

  /** The regex is not global: "a b c" loses only its first space. */
  lemma RemoveFirstSpaceRunNotGlobal()
    ensures RemoveFirstSpaceRun("a b c") == "ab c"
  {
    ABCPieces();
    RemoveFirstSpaceRunSplits("a", " ", "b c");
  }

  lemma ABCPieces()
    ensures "a" + " " + "b c" == "a b c"
    ensures "a" + "b c" == "ab c"
    ensures ' ' !in "a" && AllSpaces(" ") && "b c"[0] != ' '
  {
  }

  /** `s.replace('#', '')`: the first `#`, if any, is removed. */
  function RemoveFirstHash(s: string): (r: string)
    ensures '#' !in s ==> r == s
    ensures '#' in s ==> |r| == |s| - 1
  {
    if s == [] then []
    else if s[0] == '#' then s[1..]
    else [s[0]] + RemoveFirstHash(s[1..])
  }

  /** A leading `#` is the one removed. */
  lemma RemoveLeadingHash(rest: string)
    ensures RemoveFirstHash("#" + rest) == rest
  {
    var s := "#" + rest;
    assert s[0] == '#' && s[1..] == rest;
  }

  /** Only the first `#` is removed: a `#` in front of a hash-free tail
      leaves exactly that tail, and a hash-free prefix is kept. */
  lemma {:induction false} RemoveFirstHashSplits(prefix: string, rest: string)
    requires '#' !in prefix
    ensures RemoveFirstHash(prefix + "#" + rest) == prefix + rest
  {
    AppendAssoc(prefix, "#", rest);
    var tail := "#" + rest;
    if prefix == [] {
      assert prefix + tail == tail;
      RemoveLeadingHash(rest);
    } else {
      ConsSplit(prefix, tail);
      ConsSplit(prefix, rest);
      assert prefix[0] != '#';
      assert '#' !in prefix[1..];
      RemoveFirstHashSplits(prefix[1..], rest);
      AppendAssoc(prefix[1..], "#", rest);
    }
  }

  /** A prefix of a concatenation that fits in its left part is a prefix of
      that part. */
  lemma PrefixOfAppend(a: string, b: string, n: nat)
    requires n <= |a|
    ensures (a + b)[..n] == a[..n]
  {
  }

  /** String concatenation is associative (stated once so that proofs about
      long HTML concatenations need not rediscover it). */
  lemma AppendAssoc(a: string, b: string, c: string)
    ensures (a + b) + c == a + (b + c)
  {
  }

  /** JavaScript truthiness of a string-or-undefined: defined and not ''. */
  predicate Truthy(v: Option<string>) {
    v.Some? && v.value != ""
  }

  /** `a || b` on string-or-undefined values. */
  function Or(a: Option<string>, b: Option<string>): (r: Option<string>)
    ensures Truthy(a) ==> r == a
    ensures !Truthy(a) ==> r == b
  {
    if Truthy(a) then a else b
  }
}
