/** Searching a data source for a string, one overlapping block at a time. */
module ChunkedFind {
  import opened Operations

  const FIND_BUFFER_SIZE: nat := 4096
  const MAX_OFFSET: nat := 0x7fff_ffff

  function UpperChar(c: char): (u: char)
    ensures u == '\0' <==> c == '\0'
  {
    if 'a' <= c <= 'z' then c - 'a' + 'A' else c
  }

  /** No terminator in it. */
  predicate IsClean(s: string) {
    forall i :: 0 <= i < |s| ==> s[i] != '\0'
  }

  /** The text a search compares: in upper case unless it is case sensitive. */
  function Compared(s: string, caseSensitive: bool): (t: string)
    ensures |t| == |s|
  {
    if caseSensitive then s else seq(|s|, i requires 0 <= i < |s| => UpperChar(s[i]))
  }

  predicate MatchesAt(text: string, needle: string, f: nat) {
    f + |needle| <= |text| && text[f..f + |needle|] == needle
  }

  /** The first match at or after `start`. */
  function FirstFrom(text: string, needle: string, start: nat): (r: Option<nat>)
    decreases |text| - start
  {
    if start + |needle| > |text| then None
    else if MatchesAt(text, needle, start) then Some(start)
    else FirstFrom(text, needle, start + 1)
  }

  ghost predicate NoMatch(text: string, needle: string, start: nat, upTo: nat) {
    forall f :: start <= f < upTo ==> !MatchesAt(text, needle, f)
  }

  lemma {:induction false} FirstFromIsFirst(text: string, needle: string, start: nat)
    ensures match FirstFrom(text, needle, start)
      case Some(f) => start <= f && MatchesAt(text, needle, f) && NoMatch(text, needle, start, f)
      case None => forall f :: start <= f ==> !MatchesAt(text, needle, f)
    decreases |text| - start
  {
    if start + |needle| <= |text| && !MatchesAt(text, needle, start) {
      FirstFromIsFirst(text, needle, start + 1);
    }
  }

  lemma FirstIsUnique(text: string, needle: string, start: nat, f: nat)
    requires start <= f && MatchesAt(text, needle, f) && NoMatch(text, needle, start, f)
    ensures FirstFrom(text, needle, start) == Some(f)
  {
    FirstFromIsFirst(text, needle, start);
  }

  /** The part of a buffer before its first terminator. */
  function Visible(s: string): (v: string)
    ensures v <= s && IsClean(v)
    ensures IsClean(s) ==> v == s
  {
    if s == "" || s[0] == '\0' then "" else [s[0]] + Visible(s[1..])
  }

  /** The library search for the first match in a terminated buffer. */
  function StrStr(buffer: string, needle: string): Option<nat> {
    FirstFrom(Visible(buffer), needle, 0)
  }

  // ---------- what the search finds ----------

  /** The arguments the search refuses. */
  predicate Refused(needle: string, limit: nat) {
    || needle == "" || 0 < limit < |needle| || |needle| >= FIND_BUFFER_SIZE
  }

  predicate WithinLimit(f: nat, start: nat, limit: nat) {
    limit == 0 || f - start <= limit
  }

  /** The first match, as far as blocks of FIND_BUFFER_SIZE - 1 bytes that must be longer than
      the needle can find it. */
  function FindResult(data: string, needle: string, start: nat, caseSensitive: bool, limit: nat): int {
    if Refused(needle, limit) || start + |needle| >= |data| || |needle| >= FIND_BUFFER_SIZE - 1 then -1
    else
      Limited(FirstFrom(Compared(data, caseSensitive), Compared(needle, caseSensitive), start), start, limit)
  }

  function Limited(found: Option<nat>, start: nat, limit: nat): int {
    if found.Some? && WithinLimit(found.value, start, limit) then found.value else -1
  }

  /** What a search without limit is for: the first match, wherever it is. */
  function FirstOccurrence(data: string, needle: string, start: nat, caseSensitive: bool): int {
    match FirstFrom(Compared(data, caseSensitive), Compared(needle, caseSensitive), start)
    case None => -1
    case Some(f) => f
  }

  /** For which lengths the search is exact on all data: the needle must be shorter than a
      block and than what is left, or longer than what is left. */
  lemma ExactForTheseLengths(needle: string, start: nat, size: nat, caseSensitive: bool)
    requires needle != "" && IsClean(needle)
    ensures (forall data: string :: |data| == size && IsClean(data) ==>
              FindResult(data, needle, start, caseSensitive, 0) == FirstOccurrence(data, needle, start, caseSensitive))
       <==> start + |needle| > size || (start + |needle| < size && |needle| < FIND_BUFFER_SIZE - 1)
  {
    if start + |needle| <= size && !(start + |needle| < size && |needle| < FIND_BUFFER_SIZE - 1) {
      var data := NeedleAt(needle, start, size, caseSensitive);
      assert FindResult(data, needle, start, caseSensitive, 0) == -1;
    }
  }

  lemma NeedleAt(needle: string, start: nat, size: nat, caseSensitive: bool) returns (data: string)
    requires start + |needle| <= size && IsClean(needle)
    ensures |data| == size && IsClean(data)
    ensures FirstOccurrence(data, needle, start, caseSensitive) == start
  {
    data := seq(start, _ => 'x') + needle + seq(size - start - |needle|, _ => 'x');
    var text, wanted := Compared(data, caseSensitive), Compared(needle, caseSensitive);
    assert text[start..start + |needle|] == wanted;
    FirstIsUnique(text, wanted, start, start);
  }

  // ---------- what a match is ----------

  /** The same character, or, when case does not matter, the two cases of one letter. */
  predicate Alike(a: char, b: char, caseSensitive: bool) {
    || a == b
    || (!caseSensitive && 'a' <= a <= 'z' && b as int + 32 == a as int)
    || (!caseSensitive && 'a' <= b <= 'z' && a as int + 32 == b as int)
  }

  /** The needle stands at this place in the data, character by character. */
  ghost predicate OccursAt(data: string, needle: string, caseSensitive: bool, f: nat) {
    f + |needle| <= |data| && forall k :: 0 <= k < |needle| ==> Alike(data[f + k], needle[k], caseSensitive)
  }

  lemma ComparedAlike(a: char, b: char)
    ensures UpperChar(a) == UpperChar(b) <==> Alike(a, b, false)
  {
  }

  lemma MatchIsOccurrence(data: string, needle: string, caseSensitive: bool, f: nat)
    ensures MatchesAt(Compared(data, caseSensitive), Compared(needle, caseSensitive), f)
       <==> OccursAt(data, needle, caseSensitive, f)
  {
    var text, wanted := Compared(data, caseSensitive), Compared(needle, caseSensitive);
    if f + |needle| <= |data| {
      forall k | 0 <= k < |needle|
        ensures text[f..f + |needle|][k] == wanted[k] <==> Alike(data[f + k], needle[k], caseSensitive)
      {
        ComparedAlike(data[f + k], needle[k]);
      }
      if OccursAt(data, needle, caseSensitive, f) {
        assert forall k :: 0 <= k < |needle| ==> text[f..f + |needle|][k] == wanted[k];
      }
    }
  }

  /** The least place at or after the start where the needle stands. */
  ghost predicate IsFirstAt(data: string, needle: string, start: nat, caseSensitive: bool, r: int) {
    && start <= r && OccursAt(data, needle, caseSensitive, r)
    && forall f :: start <= f < r ==> !OccursAt(data, needle, caseSensitive, f)
  }

  lemma FirstOccurrenceMeans(data: string, needle: string, start: nat, caseSensitive: bool)
    ensures var r := FirstOccurrence(data, needle, start, caseSensitive);
      if r == -1 then forall f :: start <= f ==> !OccursAt(data, needle, caseSensitive, f)
      else IsFirstAt(data, needle, start, caseSensitive, r)
  {
    FirstFromIsFirst(Compared(data, caseSensitive), Compared(needle, caseSensitive), start);
    forall f: nat
      ensures MatchesAt(Compared(data, caseSensitive), Compared(needle, caseSensitive), f)
         <==> OccursAt(data, needle, caseSensitive, f)
    {
      MatchIsOccurrence(data, needle, caseSensitive, f);
    }
  }

  /** What the search answers: the first occurrence when it starts within the limit. It finds
      nothing when the needle is refused, when it fills a block, and when it is as long as what
      is left. */
  lemma ResultMeans(data: string, needle: string, start: nat, caseSensitive: bool, limit: nat)
    ensures var r := FindResult(data, needle, start, caseSensitive, limit);
      var able := 0 < |needle| < FIND_BUFFER_SIZE - 1 && (limit == 0 || |needle| <= limit) && start + |needle| < |data|;
      && (r != -1 ==> able && IsFirstAt(data, needle, start, caseSensitive, r) && (limit == 0 || r <= start + limit))
      && (able && r == -1 ==>
            forall f :: start <= f && (limit == 0 || f <= start + limit) ==> !OccursAt(data, needle, caseSensitive, f))
  {
    FirstOccurrenceMeans(data, needle, start, caseSensitive);
  }

  // ---------- blocks ----------

  lemma BlockOfCompared(data: string, block: string, i: nat, caseSensitive: bool)
    requires i + |block| <= |data| && block == data[i..i + |block|]
    ensures Compared(block, caseSensitive) == Compared(data, caseSensitive)[i..i + |block|]
    ensures IsClean(data) ==> IsClean(Compared(block, caseSensitive))
  {
  }

  lemma MatchInBlock(text: string, needle: string, i: nat, n: nat, f: nat)
    requires i + n <= |text|
    ensures MatchesAt(text[i..i + n], needle, f) <==> f + |needle| <= n && MatchesAt(text, needle, i + f)
  {
    if f + |needle| <= n {
      SliceOfSlice(text, i, n, f, |needle|);
    }
  }

  lemma SliceOfSlice(s: string, i: nat, n: nat, f: nat, m: nat)
    requires i + n <= |s| && f + m <= n
    ensures s[i..i + n][f..f + m] == s[i + f..i + f + m]
  {
    var t, u := s[i..i + n][f..f + m], s[i + f..i + f + m];
    assert |t| == |u| && forall k :: 0 <= k < m ==> t[k] == u[k];
  }

  /** A match in what is visible of a block is a match in the text. */
  lemma FoundInBlock(text: string, needle: string, i: nat, n: nat)
    requires i + n <= |text| && needle != ""
    ensures var found := StrStr(text[i..i + n], needle);
      found.Some? ==> found.value + |needle| <= n && MatchesAt(text, needle, i + found.value)
  {
    var block := text[i..i + n];
    FirstFromIsFirst(Visible(block), needle, 0);
    var found := StrStr(block, needle);
    if found.Some? {
      var f := found.value;
      MatchInPrefix(Visible(block), block, needle, f);
      MatchInBlock(text, needle, i, n, f);
    }
  }

  lemma MatchInPrefix(front: string, s: string, needle: string, f: nat)
    requires front <= s && MatchesAt(front, needle, f)
    ensures MatchesAt(s, needle, f)
  {
    assert front[f..f + |needle|] == s[f..f + |needle|];
  }

  /** Without terminators in it a block hides no match. */
  lemma FirstInBlock(text: string, needle: string, i: nat, n: nat)
    requires i + n <= |text| && 0 < |needle| <= n && IsClean(text[i..i + n])
    ensures var found := StrStr(text[i..i + n], needle);
      NoMatch(text, needle, i, i + if found.Some? then found.value else n - |needle| + 1)
  {
    var block := text[i..i + n];
    FirstFromIsFirst(block, needle, 0);
    var found := StrStr(block, needle);
    forall f | i <= f < i + (if found.Some? then found.value else n - |needle| + 1)
      ensures !MatchesAt(text, needle, f)
    {
      FoundInBlock(text, needle, i, n);
      MatchInBlock(text, needle, i, n, f - i);
    }
  }

  /** No match starts before `current`, nor at it once the first block has been searched. */
  ghost predicate Covered(text: string, needle: string, start: nat, current: nat) {
    current == start || (current > start && NoMatch(text, needle, start, current + 1))
  }

  /** As much as a block holds, or what is left. */
  ghost predicate IsBlock(block: string, data: string, current: nat) {
    && current + |block| <= |data| && block == data[current..current + |block|]
    && |block| == (if FIND_BUFFER_SIZE - 1 < |data| - current then FIND_BUFFER_SIZE - 1 else |data| - current)
  }

  /** What the search of one block without terminators tells of the whole text. */
  lemma BlockDecides(text: string, needle: string, start: nat, i: nat, n: nat)
    requires 0 < |needle| < n && start <= i && i + n <= |text| && IsClean(text[i..i + n])
    requires Covered(text, needle, start, i)
    ensures match StrStr(text[i..i + n], needle)
      case Some(k) => FirstFrom(text, needle, start) == Some(i + k)
      case None => Covered(text, needle, start, i + n - |needle|)
  {
    FirstInBlock(text, needle, i, n);
    FoundInBlock(text, needle, i, n);
    var found := StrStr(text[i..i + n], needle);
    if found.Some? {
      FirstIsUnique(text, needle, start, i + found.value);
    }
  }

  lemma BlockTells(text: string, wanted: string, start: nat, i: nat, piece: string, clean: bool)
    requires 0 < |wanted| < |piece| && start <= i && i + |piece| <= |text| && piece == text[i..i + |piece|]
    requires clean ==> IsClean(piece) && Covered(text, wanted, start, i)
    ensures var found := StrStr(piece, wanted);
      && (found.Some? ==> MatchesAt(text, wanted, i + found.value))
      && (clean && found.Some? ==> FirstFrom(text, wanted, start) == Some(i + found.value))
      && (clean && found.None? ==> Covered(text, wanted, start, i + |piece| - |wanted|))
  {
    FoundInBlock(text, wanted, i, |piece|);
    if clean {
      BlockDecides(text, wanted, start, i, |piece|);
    }
  }

  /** When what is left is no longer than the needle there is nothing more to find. */
  lemma NothingLeft(text: string, needle: string, start: nat, current: nat)
    ensures start < current && current + |needle| >= |text| && Covered(text, needle, start, current) ==>
      FirstFrom(text, needle, start).None?
  {
    FirstFromIsFirst(text, needle, start);
  }

  /** What has been passed is beyond the limit, and so is the first match. */
  lemma LimitPassed(text: string, needle: string, start: nat, current: nat, limit: nat)
    requires limit > 0 && current - start > limit
    ensures Covered(text, needle, start, current) ==> Limited(FirstFrom(text, needle, start), start, limit) == -1
  {
    FirstFromIsFirst(text, needle, start);
  }

  /** Blocks have been searched up to `current`, within the limit. */
  ghost predicate Searching(data: string, text: string, wanted: string, start: nat, current: nat, limit: nat) {
    && start <= current && (current == start || current + |wanted| <= |data|)
    && WithinLimit(current, start, limit) && (IsClean(data) ==> Covered(text, wanted, start, current))
  }

  lemma SearchOver(data: string, block: string, text: string, wanted: string, start: nat, current: nat, limit: nat)
    requires Searching(data, text, wanted, start, current, limit) && IsBlock(block, data, current)
    requires |block| <= |wanted| && |text| == |data|
    ensures IsClean(data) && start + |wanted| < |data| && |wanted| < FIND_BUFFER_SIZE - 1 ==>
      FirstFrom(text, wanted, start).None?
  {
    NothingLeft(text, wanted, start, current);
  }

  // ---------- the source ----------

  datatype Origin = Beginning | Current | End

  const WORD: nat := 0x1_0000_0000

  /** An unsigned and a signed 32-bit integer. */
  function AsSize(x: int): (u: nat)
    ensures u < WORD && (0 <= x < WORD ==> u == x)
  {
    x % WORD
  }

  function AsLong(x: nat): int {
    if x % WORD > MAX_OFFSET then x % WORD - WORD else x % WORD
  }

  /** Where a seek leads, unless it is refused. */
  function Target(offset: int, origin: Origin, position: nat, size: nat): Option<int> {
    match origin
    case Current => if 0 <= position + offset <= size then Some(position + offset) else None
    case End => if offset <= size then Some(size - offset) else None
    case Beginning => if offset <= size then Some(offset) else None
  }

  class CUT_BufferDataSource {
    const data: string
    var position: nat

    constructor (data: string)
      requires |data| <= MAX_OFFSET
      ensures this.data == data && position == 0
    {
      this.data := data;
      position := 0;
    }

    ghost predicate Valid()
      reads this
    {
      position <= |data| <= MAX_OFFSET
    }

    /** The new position, or -1. The sum of the current position and an offset is computed
        without a sign; the other origins only look whether the offset is too large, so that a
        negative one can leave the position outside the data. */
    method Seek(offset: int, origin: Origin) returns (r: int)
      requires Valid() && 0 <= offset + MAX_OFFSET + 1 && offset <= MAX_OFFSET
      modifies this
      ensures var target := Target(offset, origin, old(position), |data|);
        if target.Some? then position == AsSize(target.value) && r == AsLong(position)
        else position == old(position) && r == -1
      ensures Valid() <==> (origin == Current || offset >= 0)
    {
      var moved;
      match origin {
        case Current =>
          if AsSize(position + offset) > |data| {
            return -1;
          }
          moved := AsSize(position + offset);
        case End =>
          if offset > |data| {
            return -1;
          }
          moved := |data| - offset;
        case Beginning =>
          if offset > |data| {
            return -1;
          }
          moved := offset;
      }
      position := AsSize(moved);
      r := AsLong(position);
    }

    method Read(count: nat) returns (block: string)
      requires Valid()
      modifies this
      ensures Valid() && position == old(position) + |block|
      ensures |block| == (if count < |data| - old(position) then count else |data| - old(position))
      ensures block == data[old(position)..position]
    {
      var n := if count < |data| - position then count else |data| - position;
      block := data[position..position + n];
      position := position + n;
    }

    /** Whatever the data, an offset that is returned is a match at or after the start and
        within the limit; without terminators in the data it is the first. */
    method Find(needle: string, start: nat, caseSensitive: bool, limit: nat) returns (r: int)
      requires Valid() && IsClean(needle) && start <= MAX_OFFSET
      modifies this
      ensures Valid()
      ensures r == -1 || (r >= start && WithinLimit(r, start, limit) && OccursAt(data, needle, caseSensitive, r))
      ensures IsClean(data) ==> r == FindResult(data, needle, start, caseSensitive, limit)
    {
      if Refused(needle, limit) {
        return -1;
      }
      var sought := Seek(start, Beginning);
      if sought == -1 {
        return -1;
      }
      r := Search(needle, Compared(needle, caseSensitive), start, caseSensitive, limit, Compared(data, caseSensitive));
      if r >= 0 {
        MatchIsOccurrence(data, needle, caseSensitive, r);
      }
    }

    method SearchBlock(block: string, current: nat, wanted: string, start: nat, caseSensitive: bool, ghost text: string)
      returns (found: Option<nat>)
      requires IsBlock(block, data, current) && text == Compared(data, caseSensitive)
      requires 0 < |wanted| < |block| && start <= current
      requires IsClean(data) ==> Covered(text, wanted, start, current)
      ensures found.Some? ==> MatchesAt(text, wanted, current + found.value)
      ensures IsClean(data) && found.Some? ==> FirstFrom(text, wanted, start) == Some(current + found.value)
      ensures IsClean(data) && found.None? ==> Covered(text, wanted, start, current + |block| - |wanted|)
    {
      var compared := Compared(block, caseSensitive);
      BlockOfCompared(data, block, current, caseSensitive);
      found := StrStr(compared, wanted);
      BlockTells(text, wanted, start, current, compared, IsClean(data));
    }

    method Search(needle: string, wanted: string, start: nat, caseSensitive: bool, limit: nat, ghost text: string) returns (r: int)
      requires Valid() && position == start <= |data|
      requires wanted == Compared(needle, caseSensitive) && text == Compared(data, caseSensitive) && needle != ""
      modifies this
      ensures Valid()
      ensures r == -1 || (r >= start && WithinLimit(r, start, limit) && MatchesAt(text, wanted, r))
      ensures start + |needle| >= |data| || |needle| >= FIND_BUFFER_SIZE - 1 ==> r == -1
      ensures IsClean(data) && start + |needle| < |data| && |needle| < FIND_BUFFER_SIZE - 1 ==>
        r == Limited(FirstFrom(text, wanted, start), start, limit)
    {
      var current := start;
      var block := Read(FIND_BUFFER_SIZE - 1);
      while |block| > |needle|
        invariant Valid() && IsBlock(block, data, current)
        invariant Searching(data, text, wanted, start, current, limit)
        decreases |data| - current
      {
        var found := SearchBlock(block, current, wanted, start, caseSensitive, text);
        if found.Some? {
          return Limited(Some(current + found.value), start, limit);
        }
        current := current + (|block| - |needle|);
        var sought := Seek(current, Beginning);
        if limit > 0 && current - start > limit {
          LimitPassed(text, wanted, start, current, limit);
          return -1;
        }
        block := Read(FIND_BUFFER_SIZE - 1);
      }
      SearchOver(data, block, text, wanted, start, current, limit);
      r := -1;
    }
  }
}
