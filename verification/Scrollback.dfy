/** The terminal scrollback: a ring of bytes that keeps the end of everything ever written. */
module Scrollback {

  type Byte = b: int | 0 <= b < 256

  /** The last n elements, or all of them. */
  function Last<T>(s: seq<T>, n: nat): seq<T> {
    if |s| <= n then s else s[|s| - n..]
  }

  function Flatten<T>(ss: seq<seq<T>>): seq<T> {
    if ss == [] then [] else Flatten(ss[..|ss| - 1]) + ss[|ss| - 1]
  }

  /** Where a ring that is written next at `head` holds its k-th newest element. */
  function Slot(head: nat, k: nat, cap: nat): (i: nat)
    requires head < cap && 0 < k <= cap
    ensures i < cap
  {
    if k <= head then head - k else head - k + cap
  }

  /** What `copy(dst[at:], src)` does: as much of src as there is room for. */
  method Copy(dst: array<Byte>, at: nat, src: seq<Byte>) returns (n: nat)
    requires at <= dst.Length
    modifies dst
    ensures n == if |src| <= dst.Length - at then |src| else dst.Length - at
    ensures forall i :: 0 <= i < dst.Length ==>
              dst[i] == if at <= i < at + n then src[i - at] else old(dst[i])
  {
    n := if |src| <= dst.Length - at then |src| else dst.Length - at;
    var before := dst[..];
    for j := 0 to n
      invariant forall i :: 0 <= i < dst.Length ==> dst[i] == if at <= i < at + j then src[i - at] else before[i]
    {
      dst[at + j] := src[j];
    }
  }

  lemma LessThanTwice(x: nat, cap: nat)
    requires 0 < cap && x < 2 * cap
    ensures x % cap == if x < cap then x else x - cap
  {
    var q, r := x / cap, x % cap;
    assert x == q * cap + r;
    assert q >= 2 ==> q * cap >= 2 * cap;
  }

  /** Moving on by at most a round. */
  method Wrap(head: nat, n: nat, cap: nat) returns (i: nat)
    requires head < cap && n <= cap
    ensures i == if head + n < cap then head + n else head + n - cap
  {
    LessThanTwice(head + n, cap);
    i := (head + n) % cap;
  }

  class ScrollbackBuffer {
    const buf: array<Byte>
    const cap: nat
    var head: nat
    var size: nat
    /** Everything written so far. */
    ghost var written: seq<Byte>

    ghost predicate Valid()
      reads this, buf
    {
      && buf.Length == cap
      && (if cap == 0 then head == 0 else head < cap)
      && size == (if |written| <= cap then |written| else cap)
      && forall k :: 0 < k <= size ==> buf[Slot(head, k, cap)] == written[|written| - k]
    }

    constructor (capacity: nat)
      ensures Valid() && cap == capacity && written == [] && fresh(buf)
    {
      buf := new Byte[capacity](_ => 0);
      cap := capacity;
      head, size := 0, 0;
      written := [];
    }

    /** Copies the data into the ring from `head` on and around its end. */
    method LayDown(data: seq<Byte>)
      requires head < buf.Length && |data| < buf.Length
      modifies buf
      ensures Laid(old(buf[..]), buf[..], head, data)
    {
      var n := Copy(buf, head, data);
      if n < |data| {
        var _ := Copy(buf, 0, data[n..]);
      }
    }

    /** Keeps the end of data that fill the whole ring. */
    method WriteTail(data: seq<Byte>)
      requires Valid() && |data| >= cap
      modifies this, buf
      ensures Valid() && written == old(written) + data
    {
      var _ := Copy(buf, 0, data[|data| - cap..]);
      head, size := 0, cap;
      written := written + data;
    }

    method Write(data: seq<Byte>)
      requires Valid()
      modifies this, buf
      ensures Valid() && written == old(written) + data
    {
      if |data| == 0 {
        return;
      }
      if |data| >= cap {
        WriteTail(data);
        return;
      }
      LayDown(data);
      Holds(old(buf[..]), buf[..], head, size, written, data);
      head := Wrap(head, |data|, cap);
      size := size + |data|;
      if size > cap {
        size := cap;
      }
      written := written + data;
    }

    method Snapshot(maxBytes: nat) returns (result: seq<Byte>)
      requires Valid()
      ensures result == Last(written, if maxBytes <= cap then maxBytes else cap)
    {
      if size == 0 {
        return [];
      }
      var take := size;
      if take > maxBytes {
        take := maxBytes;
      }
      var start := Wrap(head, cap - take, cap);
      if start + take <= cap {
        result := buf[start..start + take];
        assert result == buf[..][start..start + take];
      } else {
        var firstPart := cap - start;
        result := buf[start..] + buf[..take - firstPart];
        assert result == buf[..][start..] + buf[..][..take - firstPart];
      }
      Newest(buf[..], head, size, written, start, take);
    }

    method Len() returns (n: nat)
      requires Valid()
      ensures n == if |written| <= cap then |written| else cap
    {
      n := size;
    }
  }

  /** The ring after data has been laid down from `head` on. */
  ghost predicate Laid(before: seq<Byte>, after: seq<Byte>, head: nat, data: seq<Byte>)
    requires head < |before| && |data| < |before|
  {
    && |after| == |before|
    && forall i :: 0 <= i < |before| ==>
         after[i] == if head <= i < head + |data| then data[i - head]
                     else if i + |before| < head + |data| then data[i + |before| - head]
                     else before[i]
  }

  /** The new data are the newest elements, and what they did not overwrite has aged by their number. */
  lemma Holds(before: seq<Byte>, after: seq<Byte>, head: nat, size: nat, written: seq<Byte>, data: seq<Byte>)
    requires head < |before| && |data| < |before| && size <= |before| && size <= |written|
    requires Laid(before, after, head, data)
    requires forall k :: 0 < k <= size ==> before[Slot(head, k, |before|)] == written[|written| - k]
    ensures var cap, all := |before|, written + data;
            var next := if head + |data| < cap then head + |data| else head + |data| - cap;
            forall k :: 0 < k <= size + |data| && k <= cap ==> after[Slot(next, k, cap)] == all[|all| - k]
  {
    var cap, all := |before|, written + data;
    var next := if head + |data| < cap then head + |data| else head + |data| - cap;
    forall k | 0 < k <= size + |data| && k <= cap ensures after[Slot(next, k, cap)] == all[|all| - k] {
      var i := Slot(next, k, cap);
      if k > |data| {
        assert i == Slot(head, k - |data|, cap);
      }
    }
  }

  /** The newest elements are a stretch of the ring that may go around its end. */
  lemma Newest(ring: seq<Byte>, head: nat, size: nat, written: seq<Byte>, start: nat, take: nat)
    requires head < |ring| && take <= size <= |ring| && size <= |written|
    requires start == if head - take < 0 then head - take + |ring| else head - take
    requires forall k :: 0 < k <= size ==> ring[Slot(head, k, |ring|)] == written[|written| - k]
    ensures start + take <= |ring| ==> ring[start..start + take] == written[|written| - take..]
    ensures start + take > |ring| ==>
              ring[start..] + ring[..take - (|ring| - start)] == written[|written| - take..]
  {
    var around := if start + take <= |ring| then ring[start..start + take] else ring[start..] + ring[..take - (|ring| - start)];
    forall j | 0 <= j < take ensures around[j] == written[|written| - take..][j] {
      assert around[j] == ring[Slot(head, take - j, |ring|)];
    }
  }

  /** Any run of writes leaves the end of their concatenation, however it was cut into chunks. */
  method WriteAll(sb: ScrollbackBuffer, chunks: seq<seq<Byte>>)
    requires sb.Valid()
    modifies sb, sb.buf
    ensures sb.Valid() && sb.written == old(sb.written) + Flatten(chunks)
  {
    assert old(sb.written) + [] == old(sb.written);
    for i := 0 to |chunks|
      invariant sb.Valid() && sb.written == old(sb.written) + Flatten(chunks[..i])
    {
      sb.Write(chunks[i]);
      assert chunks[..i + 1][..i] == chunks[..i];
    }
    assert chunks[..|chunks|] == chunks;
  }

  /** What a new subscriber gets after a run of writes is the end of the concatenated output. */
  method Replay(capacity: nat, chunks: seq<seq<Byte>>, maxBytes: nat) returns (snapshot: seq<Byte>)
    ensures snapshot == Last(Flatten(chunks), if maxBytes <= capacity then maxBytes else capacity)
  {
    var sb := new ScrollbackBuffer(capacity);
    WriteAll(sb, chunks);
    assert [] + Flatten(chunks) == Flatten(chunks);
    snapshot := sb.Snapshot(maxBytes);
  }
}
