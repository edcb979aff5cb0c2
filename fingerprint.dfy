/** The cache-key fingerprint `generate_cache_key(user_id, query)`, written out
    identically in the consumer (claude_generator) and the producer
    (prediction_scheduler): lower-case and strip the query, join it to the user id
    with ':', hash with MD5 and keep the first 16 hex digits. Both sides must derive
    the same key from the same (user, query) pair, or deduplication against the
    cache silently stops working. */
module Fingerprint {

  /** Python's `str.isspace()` for one character (the characters `str.strip()`
      removes when given no argument). */
  predicate IsSpace(c: char) {
    var n := c as int;
    n == 0x20 || 0x09 <= n <= 0x0D || 0x1C <= n <= 0x1F || n == 0x85 || n == 0xA0
    || n == 0x1680 || 0x2000 <= n <= 0x200A || n == 0x2028 || n == 0x2029
    || n == 0x202F || n == 0x205F || n == 0x3000
  }

  predicate AllSpace(s: string) {
    forall i :: 0 <= i < |s| ==> IsSpace(s[i])
  }

  /** `str.lower()` on one character, for the ASCII letters. */
  function LowerChar(c: char): char {
    if 'A' <= c <= 'Z' then (c as int + 32) as char else c
  }

  /** `str.lower()` */
  function ToLower(s: string): (r: string)
    ensures |r| == |s|
  {
    seq(|s|, i requires 0 <= i < |s| => LowerChar(s[i]))
  }

  /** `str.lstrip()` */
  function StripStart(s: string): (r: string)
    ensures |r| <= |s|
  {
    if s != [] && IsSpace(s[0]) then StripStart(s[1..]) else s
  }

  /** `str.rstrip()` */
  function StripEnd(s: string): (r: string)
    ensures |r| <= |s|
  {
    if s != [] && IsSpace(s[|s| - 1]) then StripEnd(s[..|s| - 1]) else s
  }

  /** `str.strip()` */
  function Strip(s: string): string {
    StripEnd(StripStart(s))
  }

  /** `lstrip()` removes exactly the leading run of white space: what it keeps is a
      suffix of the text that does not start with white space, and what it drops
      is all white space. */
  lemma {:induction false} StripStartShape(s: string)
    ensures var r := StripStart(s);
      && r == s[|s| - |r|..]
      && AllSpace(s[..|s| - |r|])
      && (r == [] || !IsSpace(r[0]))
    decreases |s|
  {
    if s != [] && IsSpace(s[0]) {
      var r := StripStart(s[1..]);
      StripStartShape(s[1..]);
      assert s[|s| - |r|..] == s[1..][|s| - 1 - |r|..];
      forall i | 0 <= i < |s| - |r| ensures IsSpace(s[i]) {
        if i > 0 {
          assert s[i] == s[1..][..|s| - 1 - |r|][i - 1];
        }
      }
    }
  }

  /** `rstrip()` removes exactly the trailing run of white space: what it keeps is
      a prefix of the text that does not end with white space, and what it drops
      is all white space. */
  lemma {:induction false} StripEndShape(s: string)
    ensures var r := StripEnd(s);
      && r == s[..|r|]
      && AllSpace(s[|r|..])
      && (r == [] || !IsSpace(r[|r| - 1]))
    decreases |s|
  {
    if s != [] && IsSpace(s[|s| - 1]) {
      var r := StripEnd(s[..|s| - 1]);
      StripEndShape(s[..|s| - 1]);
      assert r == s[..|s| - 1][..|r|] == s[..|r|];
      assert s[|r|..] == s[..|s| - 1][|r|..] + [s[|s| - 1]];
    }
  }

  /** `strip()` keeps an infix of the text that neither starts nor ends with white
      space. */
  lemma StripShape(s: string)
    ensures forall c :: c in Strip(s) ==> c in s
    ensures Strip(s) == [] || (!IsSpace(Strip(s)[0]) && !IsSpace(Strip(s)[|Strip(s)| - 1]))
  {
    var t := StripStart(s);
    var r := StripEnd(t);
    StripStartShape(s);
    StripEndShape(t);
    assert forall i :: 0 <= i < |r| ==> r[i] == s[|s| - |t| + i];
    assert r != [] ==> r[0] == t[0];
  }

  /** `query.lower().strip()` */
  function Normalize(query: string): string {
    Strip(ToLower(query))
  }

  predicate IsLowerHex(c: char) {
    '0' <= c <= '9' || 'a' <= c <= 'f'
  }

  function HexChar(d: nat): (c: char)
    requires d < 16
    ensures IsLowerHex(c)
  {
    "0123456789abcdef"[d]
  }

  /** The low `width` hexadecimal digits of `n`, most significant first. */
  function HexDigits(n: nat, width: nat): (h: string)
    ensures |h| == width
    ensures forall i :: 0 <= i < |h| ==> IsLowerHex(h[i])
  {
    if width == 0 then [] else HexDigits(n / 16, width - 1) + [HexChar(n % 16)]
  }

  /** A deterministic stand-in for the 128-bit MD5 digest of RFC 1321. The model
      relies only on its determinism and on its shape (see Md5Hex), never on the
      particular value. */
  function Digest(s: string): nat {
    if s == [] then 0 else Digest(s[..|s| - 1]) * 257 + s[|s| - 1] as nat
  }

  /** `hashlib.md5(text.encode()).hexdigest()`: 32 lower-case hex digits. */
  function Md5Hex(text: string): (h: string)
    ensures |h| == 32
    ensures forall i :: 0 <= i < |h| ==> IsLowerHex(h[i])
  {
    HexDigits(Digest(text), 32)
  }

  const KEY_LENGTH: nat := 16

  /** `generate_cache_key(user_id, query)` */
  function CacheKey(userId: string, query: string): (key: string)
    ensures |key| == KEY_LENGTH
    ensures forall i :: 0 <= i < |key| ==> IsLowerHex(key[i])
  {
    Md5Hex(userId + ":" + Normalize(query))[..KEY_LENGTH]
  }

  lemma {:induction false} StripStartPadded(pre: string, s: string)
    requires AllSpace(pre)
    ensures StripStart(pre + s) == StripStart(s)
    decreases |pre|
  {
    if pre != [] {
      assert (pre + s)[0] == pre[0] && (pre + s)[1..] == pre[1..] + s;
      StripStartPadded(pre[1..], s);
    } else {
      assert pre + s == s;
    }
  }

  lemma {:induction false} StripEndPadded(s: string, post: string)
    requires AllSpace(post)
    ensures StripEnd(s + post) == StripEnd(s)
    decreases |post|
  {
    if post != [] {
      var post' := post[..|post| - 1];
      assert (s + post)[|s + post| - 1] == post[|post| - 1];
      assert (s + post)[..|s + post| - 1] == s + post';
      StripEndPadded(s, post');
    } else {
      assert s + post == s;
    }
  }

  /** Trailing white space added after `s` is stripped away again, whether or
      not `s` itself is all white space. */
  lemma {:induction false} StripTrailingPadding(s: string, post: string)
    requires AllSpace(post)
    ensures Strip(s + post) == Strip(s)
    decreases |s|
  {
    if s == [] {
      assert s + post == post;
      StripStartPadded(post, []);
      assert post + [] == post;
    } else if IsSpace(s[0]) {
      assert (s + post)[1..] == s[1..] + post;
      StripTrailingPadding(s[1..], post);
    } else {
      StripEndPadded(s, post);
    }
  }

  /** `strip()` ignores white space on both sides. */
  lemma StripPadded(pre: string, s: string, post: string)
    requires AllSpace(pre) && AllSpace(post)
    ensures Strip(pre + s + post) == Strip(s)
  {
    assert pre + s + post == pre + (s + post);
    StripStartPadded(pre, s + post);
    StripTrailingPadding(s, post);
  }

  lemma ToLowerConcat(a: string, b: string)
    ensures ToLower(a + b) == ToLower(a) + ToLower(b)
  {
    assert forall i :: 0 <= i < |a + b| ==> ToLower(a + b)[i] == (ToLower(a) + ToLower(b))[i];
  }

  /** Queries that differ only in white space around them share a cache key. */
  lemma KeyIgnoresPadding(userId: string, pre: string, query: string, post: string)
    requires AllSpace(pre) && AllSpace(post)
    ensures CacheKey(userId, pre + query + post) == CacheKey(userId, query)
  {
    ToLowerConcat(pre + query, post);
    ToLowerConcat(pre, query);
    assert AllSpace(ToLower(pre)) && AllSpace(ToLower(post));
    StripPadded(ToLower(pre), ToLower(query), ToLower(post));
  }

  /** Lower-casing a lower-cased query changes nothing. */
  lemma ToLowerIdempotent(s: string)
    ensures ToLower(ToLower(s)) == ToLower(s)
  {
    assert forall i :: 0 <= i < |s| ==> LowerChar(LowerChar(s[i])) == LowerChar(s[i]);
  }

  /** Queries that differ only in letter case share a cache key: the key of a
      query is the key of its lower-cased form. */
  lemma KeyIgnoresCase(userId: string, query: string)
    ensures CacheKey(userId, ToLower(query)) == CacheKey(userId, query)
  {
    ToLowerIdempotent(query);
  }

  /** A stripped text has nothing left to strip. */
  lemma StripStripped(s: string)
    ensures Strip(Strip(s)) == Strip(s)
  {
    var n := Strip(s);
    StripShape(s);
    assert StripStart(n) == n;
    assert StripEnd(n) == n;
  }

  /** The lower-cased text keeps only lower-case letters, and so does any text
      made of its characters. */
  lemma LowerOfStrippedLower(query: string)
    ensures ToLower(Strip(ToLower(query))) == Strip(ToLower(query))
  {
    var low := ToLower(query);
    var n := Strip(low);
    StripShape(low);
    forall i | 0 <= i < |n| ensures LowerChar(n[i]) == n[i] {
      assert n[i] in low;
      var j :| 0 <= j < |low| && low[j] == n[i];
      assert n[i] == LowerChar(query[j]);
    }
  }

  /** A query that is already normalised keys the same slot as the query it came
      from: normalisation is idempotent. */
  lemma NormalizeIdempotent(userId: string, query: string)
    ensures Normalize(Normalize(query)) == Normalize(query)
    ensures CacheKey(userId, Normalize(query)) == CacheKey(userId, query)
  {
    LowerOfStrippedLower(query);
    StripStripped(ToLower(query));
  }
}
