/** Reading a growing file in ranges: artifacts through an open file, job output by path. */
module Paging {
  import opened Common

  type Bytes = seq<Byte>

  datatype Page = Page(data: Bytes, next: nat, total: nat, eof: bool)

  /** What both readers return for a file that had `total` bytes when it was sized. */
  function Range(file: Bytes, total: nat, offset: nat, limit: nat): Page
    requires total <= |file|
  {
    if offset >= total then Page([], offset, total, true)
    else
      var next := if limit > total - offset then total else offset + limit;
      Page(file[offset..next], next, total, next >= total)
  }

  /** A positional read into a buffer: it stops short only at the end of the file. */
  method ReadAt(file: Bytes, buffer: array<Byte>, offset: nat) returns (n: nat)
    modifies buffer
    ensures n == (if offset >= |file| then 0 else if buffer.Length < |file| - offset then buffer.Length
              else |file| - offset)
    ensures n > 0 ==> buffer[..n] == file[offset..offset + n]
  {
    n := 0;
    while n < buffer.Length && offset + n < |file|
      invariant 0 <= n <= buffer.Length
      invariant n > 0 ==> offset + n <= |file|
      invariant forall k :: 0 <= k < n ==> buffer[k] == file[offset + k]
    {
      buffer[n] := file[offset + n];
      n := n + 1;
    }
  }

  /** `sized` is the file when it was sized and `read` when it was read; it may have grown in
      between. */
  method ReadRange(sized: Bytes, read: Bytes, offset: nat, limit: nat)
      returns (data: Bytes, next: nat, total: nat, eof: bool)
    requires sized <= read
    ensures Page(data, next, total, eof) == Range(read, |sized|, offset, limit)
  {
    total := |sized|;
    if offset >= total { return [], offset, total, true; }
    var remaining := total - offset;
    var limit := limit;
    if limit > remaining {
      limit := remaining;
    }
    var buffer := new Byte[limit](_ => 0);
    var n := ReadAt(read, buffer, offset);
    data := buffer[..n];
    next := offset + n;
    eof := next >= total;
  }

  method ReadOutputRange(sized: Bytes, read: Bytes, offset: nat, limit: nat)
      returns (data: Bytes, total: nat, next: nat, eof: bool)
    requires sized <= read
    ensures Page(data, next, total, eof) == Range(read, |sized|, offset, limit)
  {
    total := |sized|;
    if offset >= total { return [], total, offset, true; }
    var remaining := total - offset;
    var limit := limit;
    if limit > remaining {
      limit := remaining;
    }
    var buffer := new Byte[limit](_ => 0);
    var n := ReadAt(read, buffer, offset);
    data := buffer[..n];
    next := offset + n;
    eof := next >= total;
  }

  /** One read of a client that follows `next_offset`. */
  datatype Read = Read(sized: nat, limit: nat)

  /** The file only grows: `final` is its last contents, and every read sees at least as much
      of it as the read before. */
  predicate Growing(final: Bytes, pages: seq<Read>) {
    && (forall i :: 0 <= i < |pages| ==> pages[i].sized <= |final| && pages[i].limit > 0)
    && (forall i, j :: 0 <= i < j < |pages| ==> pages[i].sized <= pages[j].sized)
  }

  /** The offset after some reads, and everything they returned. */
  function Offset(final: Bytes, pages: seq<Read>): nat
    requires Growing(final, pages)
  {
    if pages == [] then 0
    else
      var last := pages[|pages| - 1];
      Range(final, last.sized, Offset(final, pages[..|pages| - 1]), last.limit).next
  }

  function Collected(final: Bytes, pages: seq<Read>): Bytes
    requires Growing(final, pages)
  {
    if pages == [] then []
    else
      var earlier, last := pages[..|pages| - 1], pages[|pages| - 1];
      Collected(final, earlier) + Range(final, last.sized, Offset(final, earlier), last.limit).data
  }

  /** Following `next_offset` from zero, with any positive limits while the file grows,
      collects exactly the file up to the offset reached. */
  lemma {:induction false} CollectsAPrefix(final: Bytes, pages: seq<Read>)
    requires Growing(final, pages)
    ensures Offset(final, pages) <= |final|
    ensures pages != [] ==> Offset(final, pages) <= pages[|pages| - 1].sized
    ensures Collected(final, pages) == final[..Offset(final, pages)]
  {
    if pages != [] {
      var earlier, last := pages[..|pages| - 1], pages[|pages| - 1];
      CollectsAPrefix(final, earlier);
      var offset := Offset(final, earlier);
      if offset < last.sized {
        var next := Range(final, last.sized, offset, last.limit).next;
        assert final[..next] == final[..offset] + final[offset..next];
      }
    }
  }

  function Times(n: nat, limit: nat): nat {
    if n == 0 then 0 else Times(n - 1, limit) + limit
  }

  lemma {:induction false} TimesIsProduct(n: nat, limit: nat)
    ensures Times(n, limit) == n * limit
  {
    if n > 0 {
      TimesIsProduct(n - 1, limit);
      assert n * limit == (n - 1) * limit + limit;
    }
  }

  /** Once growth has stopped, every further read with a limit of at least `limit` advances
      by that much or reaches the end of the file. */
  lemma {:induction false} ReachesTheEnd(final: Bytes, pages: seq<Read>, from: nat, limit: nat)
    requires Growing(final, pages) && from <= |pages|
    requires forall i :: from <= i < |pages| ==> pages[i].sized == |final| && pages[i].limit >= limit
    ensures Offset(final, pages) == |final| || Offset(final, pages) >= Times(|pages| - from, limit)
    decreases |pages| - from
  {
    if from < |pages| {
      var earlier := pages[..|pages| - 1];
      ReachesTheEnd(final, earlier, from, limit);
      CollectsAPrefix(final, earlier);
    }
  }

  lemma EnoughReads(final: Bytes, pages: seq<Read>, from: nat, limit: nat)
    requires Growing(final, pages) && from < |pages|
    requires forall i :: from <= i < |pages| ==> pages[i].sized == |final| && pages[i].limit >= limit
    requires Times(|pages| - from, limit) >= |final|
    ensures Collected(final, pages) == final
    ensures var last := pages[|pages| - 1];
            Range(final, last.sized, Offset(final, pages[..|pages| - 1]), last.limit).eof
  {
    hide Collected;
    ReachesTheEnd(final, pages, from, limit);
    CollectsAPrefix(final, pages);
    assert Offset(final, pages) == |final|;
  }

  /** Within the length of the file divided by the limit, rounded up, further reads return
      the whole file, and the last of them says so. */
  lemma WholeFileCollected(final: Bytes, pages: seq<Read>, from: nat, limit: nat)
    requires Growing(final, pages) && from < |pages|
    requires forall i :: from <= i < |pages| ==> pages[i].sized == |final| && pages[i].limit >= limit
    requires (|pages| - from) * limit >= |final|
    ensures Collected(final, pages) == final
    ensures var last := pages[|pages| - 1];
            Range(final, last.sized, Offset(final, pages[..|pages| - 1]), last.limit).eof
  {
    TimesIsProduct(|pages| - from, limit);
    EnoughReads(final, pages, from, limit);
  }

  /** A page holds exactly the bytes from its offset on, as many as asked for or as there are, and
      says it is the last one exactly if it reaches the end. */
  lemma PageExactly(file: Bytes, total: nat, offset: nat, limit: nat)
    requires total <= |file|
    ensures var page := Range(file, total, offset, limit);
            && page.total == total && page.next == offset + |page.data|
            && (forall k :: 0 <= k < |page.data| ==> page.data[k] == file[offset + k])
            && (offset >= total ==> page.data == [])
            && (offset < total && limit <= total - offset ==> |page.data| == limit)
            && (offset < total && limit > total - offset ==> |page.data| == total - offset)
            && (page.eof <==> offset + |page.data| >= total)
  {
  }
}
