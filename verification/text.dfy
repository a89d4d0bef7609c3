/** The two Python string operations the extraction step uses:
    `str.replace("\n", " ")` and `sep.join(parts)`. */
module Text {

  /** `s.replace("\n", " ")`: every line feed becomes a space, every other
      character stays where it was. */
  function ReplaceNewlines(s: string): (r: string)
    ensures |r| == |s|
    ensures forall i :: 0 <= i < |s| ==> r[i] == (if s[i] == '\n' then ' ' else s[i])
  {
    if s == [] then [] else [if s[0] == '\n' then ' ' else s[0]] + ReplaceNewlines(s[1..])
  }

  /** After the replacement no line feed is left. */
  lemma NoNewlineAfterReplace(s: string)
    ensures '\n' !in ReplaceNewlines(s)
    ensures '\n' !in s ==> ReplaceNewlines(s) == s
  {
  }

  /** `sep.join(parts)`: the parts in order with `sep` between neighbours. */
  function Join(sep: string, parts: seq<string>): string
  {
    if |parts| == 0 then ""
    else if |parts| == 1 then parts[0]
    else parts[0] + sep + Join(sep, parts[1..])
  }

  /** Joining one part gives that part unchanged, whatever the separator. */
  lemma JoinOne(sep: string, part: string)
    ensures Join(sep, [part]) == part
  {
  }

  /** Appending a part at the end adds the separator and that part. */
  lemma {:induction false} JoinAppend(sep: string, parts: seq<string>, last: string)
    requires parts != []
    ensures Join(sep, parts + [last]) == Join(sep, parts) + sep + last
  {
    if |parts| == 1 {
      assert parts + [last] == [parts[0], last];
    } else {
      assert (parts + [last])[1..] == parts[1..] + [last];
      JoinAppend(sep, parts[1..], last);
    }
  }

  /** `", ".join(["a", "b"])` is `"a, b"`. */
  lemma JoinExample()
    ensures Join(", ", ["a", "b"]) == "a, b"
  {
  }
}
