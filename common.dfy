/** Values shared by every router, and the Python built-ins the in-memory
    routers lean on: list slicing, the substring operator `in`, `str.lower`,
    `str(int)` and `max`. */
module Common {

  datatype Option<T> = None | Some(value: T)

  /** The only failure the in-memory routers raise: HTTPException(status_code=404, detail=...). */
  datatype Error = NotFound(detail: string)

  datatype Result<T> = Ok(value: T) | Err(error: Error)

  /** A calendar date (datetime.date). The routers only compare dates for equality. */
  datatype Date = Date(year: int, month: int, day: int)

  function Min(a: int, b: int): int { if a <= b then a else b }

  function Max(a: int, b: int): int { if a <= b then b else a }

  // ---------------------------------------------------------------------------
  // Slicing: Python's `s[start : stop]`
  // ---------------------------------------------------------------------------

  /** Python's normalisation of one slice bound against a list of length `n`:
      a negative bound counts from the end, and the result is clamped to 0..n. */
  function SliceBound(i: int, n: nat): (k: nat)
    ensures k <= n
  {
    if i < 0 then (if n + i < 0 then 0 else n + i)
    else if i <= n then i else n
  }

  /** `page` is the run of `s` that starts at index `skip`, and when `limit` is
      not negative it holds `limit` entries, or all that remain if fewer. */
  ghost predicate IsWindow<T>(page: seq<T>, s: seq<T>, skip: int, limit: int)
  {
    && (page != [] ==> 0 <= skip && skip + |page| <= |s| && page == s[skip..skip + |page|])
    && (0 <= skip && 0 <= limit ==> |page| == Min(limit, Max(0, |s| - skip)))
  }

  /** Python's `s[start : stop]` for any integers `start` and `stop`. */
  function Slice<T>(s: seq<T>, start: int, stop: int): (r: seq<T>)
    ensures |r| <= |s|
    ensures forall x :: x in r ==> x in s
    ensures 0 <= start ==> IsWindow(r, s, start, stop - start)
  {
    var lo, hi := SliceBound(start, |s|), SliceBound(stop, |s|);
    if lo < hi then s[lo..hi] else []
  }

  /** Two consecutive pages neither overlap nor leave a gap: the page at `skip`
      of `a` entries followed by the page at `skip + a` of `b` entries is the
      page at `skip` of `a + b` entries. */
  lemma PagesTile<T>(s: seq<T>, skip: nat, a: nat, b: nat)
    ensures Slice(s, skip, skip + a) + Slice(s, skip + a, skip + a + b) == Slice(s, skip, skip + a + b)
  {
    var n := |s|;
    if skip + a >= n {
      assert Slice(s, skip + a, skip + a + b) == [];
      assert SliceBound(skip + a, n) == n;
    } else {
      var hi := Min(skip + a + b, n);
      assert SliceBound(skip + a + b, n) == hi;
      assert Slice(s, skip, skip + a) == s[skip..skip + a];
      assert Slice(s, skip + a, skip + a + b) == s[skip + a..hi];
      assert Slice(s, skip, skip + a + b) == s[skip..hi];
      SplitRun(s, skip, skip + a, hi);
    }
  }

  /** Two adjacent runs of a list join into one run. */
  lemma SplitRun<T>(s: seq<T>, i: nat, j: nat, k: nat)
    requires i <= j <= k <= |s|
    ensures s[i..j] + s[j..k] == s[i..k]
  {
    var joined := s[i..j] + s[j..k];
    assert |joined| == k - i;
    forall m | 0 <= m < k - i ensures joined[m] == s[i..k][m] {
      if m < j - i {
        assert joined[m] == s[i..j][m];
      } else {
        assert joined[m] == s[j..k][m - (j - i)];
      }
    }
  }

  /** A negative `limit` with `skip + limit < 0` makes the stop bound count
      from the end of the list: the page runs from `skip` to `|s| + skip + limit`.
      With `skip = 0` and `limit = -1` that is every entry but the last, however
      long the list, so the query cap `limit <= 100` does not bound the page. */
  lemma NegativeLimitCountsFromEnd<T>(s: seq<T>, skip: nat, limit: int)
    requires skip + limit < 0 && 0 <= |s| + limit
    ensures skip <= |s| + skip + limit <= |s|
    ensures Slice(s, skip, skip + limit) == s[skip..|s| + skip + limit]
  {
  }

  /** A negative `limit` with `skip + limit < 0` on a list of fewer than
      `-limit` entries gives an empty page: `[1, 2, 3][0:-5] == []`. */
  lemma NegativeLimitShortListEmptyPage<T>(s: seq<T>, skip: nat, limit: int)
    requires skip + limit < 0 && |s| + limit < 0
    ensures Slice(s, skip, skip + limit) == []
  {
  }

  /** A negative `limit` with `0 <= skip + limit` gives a stop bound below the
      start, so the page is empty whatever the list: `s[5:3] == []`. */
  lemma NegativeLimitEmptyPage<T>(s: seq<T>, skip: nat, limit: int)
    requires limit < 0 <= skip + limit
    ensures Slice(s, skip, skip + limit) == []
  {
  }

  // ---------------------------------------------------------------------------
  // Strings: `q in s`, `s.lower()`, `str(n)`
  // ---------------------------------------------------------------------------

  /** Python's substring test `q in s`. The empty string is in every string. */
  predicate Contains(s: string, q: string)
  {
    exists i | 0 <= i <= |s| - |q| :: OccursAt(s, q, i)
  }

  /** `q` is the run of `s` that starts at index `i`. */
  predicate OccursAt(s: string, q: string, i: nat)
  {
    i + |q| <= |s| && s[i..i + |q|] == q
  }

  /** Every character of a string found inside `s` is a character of `s`. */
  lemma ContainsCharsOf(s: string, q: string, c: char)
    requires Contains(s, q) && c in q
    ensures c in s
  {
    var i :| 0 <= i <= |s| - |q| && OccursAt(s, q, i);
    var k :| 0 <= k < |q| && q[k] == c;
    assert s[i + k] == s[i..i + |q|][k];
  }

  /** `str.lower()` on one character, restricted to ASCII letters. */
  function LowerChar(c: char): char
  {
    if 'A' <= c <= 'Z' then (c as int + 32) as char else c
  }

  /** `str.lower()`, restricted to ASCII letters; every other character is kept. */
  function Lower(s: string): (r: string)
    ensures |r| == |s|
    ensures forall i | 0 <= i < |s| :: !('A' <= r[i] <= 'Z')
    ensures forall i | 0 <= i < |s| && 'A' <= s[i] <= 'Z' :: r[i] == (s[i] as int + 32) as char
    ensures forall i | 0 <= i < |s| && !('A' <= s[i] <= 'Z') :: r[i] == s[i]
  {
    seq(|s|, i requires 0 <= i < |s| => LowerChar(s[i]))
  }

  function DigitChar(d: nat): char
    requires d < 10
  {
    "0123456789"[d]
  }

  predicate IsDigit(c: char) { '0' <= c <= '9' }

  /** Decimal numeral of a natural number, without leading zeros. */
  function NatToString(n: nat): string
  {
    if n < 10 then [DigitChar(n)] else NatToString(n / 10) + [DigitChar(n % 10)]
  }

  /** Python's `str(n)` on an int: a minus sign, when negative, then the digits. */
  function IntToString(n: int): string
  {
    if n < 0 then "-" + NatToString(-n) else NatToString(n)
  }

  lemma {:induction false} NatToStringDigits(n: nat)
    ensures NatToString(n) != [] && IsDigit(NatToString(n)[0])
    ensures forall c :: c in NatToString(n) ==> IsDigit(c)
  {
    if n >= 10 {
      NatToStringDigits(n / 10);
    }
  }

  /** `str(n)` is made of digits and at most a leading minus sign. */
  lemma IntToStringChars(n: int)
    ensures forall c :: c in IntToString(n) ==> IsDigit(c) || c == '-'
    ensures n >= 0 <==> IsDigit(IntToString(n)[0])
  {
    if n < 0 {
      NatToStringDigits(-n);
      assert IntToString(n)[0] == '-';
    } else {
      NatToStringDigits(n);
    }
  }

  /** A search text holding any character other than a digit or a minus sign is
      never found inside `str(n)`. */
  lemma NoTextInNumeral(n: int, q: string, c: char)
    requires c in q && !IsDigit(c) && c != '-'
    ensures !Contains(IntToString(n), q)
  {
    if Contains(IntToString(n), q) {
      ContainsCharsOf(IntToString(n), q, c);
      IntToStringChars(n);
    }
  }

  // ---------------------------------------------------------------------------
  // max()
  // ---------------------------------------------------------------------------

  /** Python's `max(ids)` on a non-empty list of ints. */
  function MaxOf(ids: seq<int>): (m: int)
    requires ids != []
    ensures m in ids
    ensures forall x :: x in ids ==> x <= m
  {
    if |ids| == 1 then ids[0]
    else
      var rest := MaxOf(ids[1..]);
      assert ids == [ids[0]] + ids[1..];
      if ids[0] >= rest then ids[0] else rest
  }
}
