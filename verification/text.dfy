/** Character case mapping and substring search, as the monitor uses Python's
    `str.lower`, `str.upper` and `in` on strings. Case mapping covers ASCII and
    the Latin-1 letters; other characters map to themselves. */
module Text {

  /** Python's `str.lower` on one character: A-Z and the Latin-1 capitals
      U+00C0..U+00DE (except U+00D7, the multiplication sign) move 32 code
      points up; every other character is unchanged. */
  function LowerChar(c: char): char
  {
    if 'A' <= c <= 'Z' || ('\U{C0}' <= c <= '\U{DE}' && c != '\U{D7}')
    then (c as int + 32) as char
    else c
  }

  /** Python's `str.upper` on one character, the inverse direction of LowerChar:
      a-z and U+00E0..U+00FE (except U+00F7, the division sign) move 32 code
      points down. */
  function UpperChar(c: char): char
  {
    if 'a' <= c <= 'z' || ('\U{E0}' <= c <= '\U{FE}' && c != '\U{F7}')
    then (c as int - 32) as char
    else c
  }

  function Lower(s: string): (r: string)
    ensures |r| == |s|
    ensures forall i :: 0 <= i < |s| ==> r[i] == LowerChar(s[i])
  {
    seq(|s|, i requires 0 <= i < |s| => LowerChar(s[i]))
  }

  function Upper(s: string): (r: string)
    ensures |r| == |s|
    ensures forall i :: 0 <= i < |s| ==> r[i] == UpperChar(s[i])
  {
    seq(|s|, i requires 0 <= i < |s| => UpperChar(s[i]))
  }

  /** An upper-cased string holds no ASCII lower-case letter. */
  lemma UpperHasNoAsciiLower(s: string, i: int)
    requires 0 <= i < |s|
    ensures !('a' <= Upper(s)[i] <= 'z')
  {
  }

  /** `needle` occurs in `hay` at index `i`: the reference definition of a substring. */
  predicate OccursAt(hay: string, needle: string, i: int)
  {
    0 <= i && i + |needle| <= |hay| && hay[i..i + |needle|] == needle
  }

  /** Python's `needle in hay` for strings, as a left-to-right scan. */
  function Contains(hay: string, needle: string): (r: bool)
    ensures r ==> |needle| <= |hay|
    decreases |hay|
  {
    if needle <= hay then true
    else if |hay| == 0 then false
    else Contains(hay[1..], needle)
  }

  /** The scan finds the needle exactly when it occurs at some index. */
  lemma {:induction false} ContainsIffOccurs(hay: string, needle: string)
    ensures Contains(hay, needle) <==> exists i :: OccursAt(hay, needle, i)
    decreases |hay|
  {
    if needle <= hay {
      assert OccursAt(hay, needle, 0);
    } else if |hay| > 0 {
      ContainsIffOccurs(hay[1..], needle);
      if Contains(hay[1..], needle) {
        var i :| OccursAt(hay[1..], needle, i);
        assert hay[1..][i..i + |needle|] == hay[i + 1..i + 1 + |needle|];
        assert OccursAt(hay, needle, i + 1);
      } else {
        forall i | 0 < i && i + |needle| <= |hay| ensures !OccursAt(hay, needle, i) {
          assert hay[1..][i - 1..i - 1 + |needle|] == hay[i..i + |needle|];
          assert !OccursAt(hay[1..], needle, i - 1);
        }
      }
    }
  }

  /** An occurrence of an occurrence is an occurrence: substring containment is transitive. */
  lemma OccursTransitive(hay: string, mid: string, needle: string, i: int, j: int)
    requires OccursAt(hay, mid, i) && OccursAt(mid, needle, j)
    ensures OccursAt(hay, needle, i + j)
  {
    forall k | 0 <= k < |needle| ensures hay[i + j + k] == needle[k] {
      assert mid[j + k] == needle[k];
      assert hay[i + (j + k)] == mid[j + k];
    }
  }

  /** A string occurs in any concatenation it is the middle part of. */
  lemma OccursInMiddle(a: string, b: string, c: string)
    ensures OccursAt(a + b + c, b, |a|)
  {
  }

  /** An occurrence stays one when text is appended. */
  lemma OccursExtended(hay: string, tail: string, needle: string, i: int)
    requires OccursAt(hay, needle, i)
    ensures OccursAt(hay + tail, needle, i)
  {
  }

  /** An occurrence stays one, shifted, when text is added around it. */
  lemma OccursWithin(pre: string, hay: string, post: string, needle: string, i: int)
    requires OccursAt(hay, needle, i)
    ensures OccursAt(pre + hay + post, needle, |pre| + i)
  {
  }

  /** Python's `sep.join(items)`. */
  function Join(sep: string, items: seq<string>): (r: string)
    ensures |items| == 0 ==> r == ""
    ensures |items| > 0 ==> OccursAt(r, items[0], 0)
  {
    if |items| == 0 then ""
    else if |items| == 1 then
      assert items[0][0..|items[0]|] == items[0];
      items[0]
    else
      var rest := Join(sep, items[1..]);
      assert (items[0] + sep + rest)[0..|items[0]|] == items[0];
      items[0] + sep + rest
  }


  /** Every item occurs in the joined string. */
  lemma {:induction false} JoinHoldsItems(sep: string, items: seq<string>, k: int)
    requires 0 <= k < |items|
    ensures exists j :: OccursAt(Join(sep, items), items[k], j)
    decreases |items|
  {
    if |items| == 1 {
      OccursInMiddle("", items[0], "");
      assert "" + items[0] + "" == Join(sep, items);
    } else if k == 0 {
      OccursInMiddle("", items[0], sep + Join(sep, items[1..]));
      assert "" + items[0] + (sep + Join(sep, items[1..])) == Join(sep, items);
    } else {
      JoinHoldsItems(sep, items[1..], k - 1);
      var j :| OccursAt(Join(sep, items[1..]), items[1..][k - 1], j);
      OccursWithin(items[0] + sep, Join(sep, items[1..]), "", items[k], j);
      assert items[0] + sep + Join(sep, items[1..]) + "" == Join(sep, items);
    }
  }
}
