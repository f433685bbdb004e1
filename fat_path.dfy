/** Path joining for the FAT file system (`fat::allocate_path`) and the
    handle that owns the joined path (`fat::path_erased`).

    A path is the character sequence before its terminating NUL. The buffer
    `allocate_path` fills is an array of `Option<char>`: `None` marks a cell
    the function never wrote, so what a C reader would find there is
    undefined. */
module FatPath {
  import opened Ecl

  const NUL: char := '\0'
  const Slash: char := '/'

  /** A C string: no NUL inside. */
  predicate IsCString(s: seq<char>)
  {
    NUL !in s
  }

  /** `path` already ends with `/`. */
  predicate Trailed(path: seq<char>)
    requires |path| >= 1
  {
    path[|path| - 1] == Slash
  }

  function TailLen(tail: Option<seq<char>>): nat
  {
    if tail.Some? then |tail.value| else 0
  }

  /** The path `allocate_path` is meant to build: `path`, a `/` unless
      `path` already ends with one, then the tail if there is one. */
  function Joined(path: seq<char>, tail: Option<seq<char>>): seq<char>
    requires |path| >= 1
  {
    Head(path) + (if tail.Some? then tail.value else [])
  }

  /** `path` followed by the separator the join adds when it lacks one. */
  function Head(path: seq<char>): seq<char>
    requires |path| >= 1
  {
    path + (if Trailed(path) then [] else [Slash])
  }

  /** The number of cells `allocate_path` allocates: both strings with their
      terminators, plus one for the separator when `path` lacks it. */
  function Allocation(path: seq<char>, tail: Option<seq<char>>): nat
    requires |path| >= 1
  {
    (|path| + 1) + (TailLen(tail) + 1) + (if Trailed(path) then 0 else 1)
  }

  /** The cells written with the characters of `s`, in order. */
  function Cells(s: seq<char>): seq<Option<char>>
  {
    seq(|s|, i requires 0 <= i < |s| => Some(s[i]))
  }

  /** `n` cells nobody has written. */
  function Blank(n: nat): seq<Option<char>>
  {
    seq(n, _ => None)
  }

  /** Reading `buf` as a C string from its first cell yields `s`: the
      characters of `s`, then a written NUL. */
  predicate HoldsCString(buf: seq<Option<char>>, s: seq<char>)
  {
    && IsCString(s)
    && |s| < |buf|
    && buf[..|s|] == Cells(s)
    && buf[|s|] == Some(NUL)
  }

  /** The joined path starts with `path`, ends with the tail, has exactly
      one `/` between the two, and is still a C string. */
  lemma JoinedParts(path: seq<char>, tail: Option<seq<char>>)
    requires |path| >= 1 && IsCString(path)
    requires tail.Some? ==> IsCString(tail.value)
    ensures var j := Joined(path, tail);
            && IsCString(j)
            && j[..|path|] == path
            && j[|j| - TailLen(tail)..] == (if tail.Some? then tail.value else [])
            && j[|j| - TailLen(tail) - 1] == Slash
            && |j| == |path| + TailLen(tail) + (if Trailed(path) then 0 else 1)
  {
    var j := Joined(path, tail);
    var t := if tail.Some? then tail.value else [];
    var mid := if Trailed(path) then [] else [Slash];
    assert j == path + mid + t;
    assert j[..|path|] == path;
    assert j[|j| - |t|..] == t;
    if Trailed(path) {
      assert j[|j| - |t| - 1] == path[|path| - 1];
    } else {
      assert j[|j| - |t| - 1] == mid[0];
    }
    assert NUL !in mid && NUL !in t;
    assert NUL !in j by {
      forall i | 0 <= i < |j| ensures j[i] != NUL {
        if i < |path| {
          assert j[i] == path[i];
        } else if i < |path| + |mid| {
          assert j[i] == mid[i - |path|];
        } else {
          assert j[i] == t[i - |path| - |mid|];
        }
      }
    }
  }

  /** The allocation is two cells longer than the joined path: room for its
      terminator and one cell more. */
  lemma AllocationFits(path: seq<char>, tail: Option<seq<char>>)
    requires |path| >= 1
    ensures Allocation(path, tail) == |Joined(path, tail)| + 2
  {
  }

  /** A buffer whose cell right after `path ++ "/"` was never written holds
      no C string at all: every reading either meets a non-NUL character
      where it needs the terminator or runs into the unwritten cell. */
  lemma UnterminatedHoldsNothing(buf: seq<Option<char>>, path: seq<char>, s: seq<char>)
    requires IsCString(path)
    requires |path| + 2 <= |buf|
    requires buf[..|path| + 1] == Cells(path + [Slash])
    requires buf[|path| + 1] == None
    ensures !HoldsCString(buf, s)
  {
    var p := path + [Slash];
    if |s| <= |path| {
      assert buf[|s|] == buf[..|path| + 1][|s|] == Some(p[|s|]);
      assert p[|s|] != NUL by {
        if |s| < |path| {
          assert p[|s|] == path[|s|];
        }
      }
    } else if |path| + 1 < |s| < |buf| {
      assert buf[..|s|][|path| + 1] == None;
    }
  }

  /** A C string written with its terminator is what a C reader finds. */
  lemma TerminatedHolds(s: seq<char>)
    requires IsCString(s)
    ensures HoldsCString(Cells(s + [NUL, NUL]), s)
  {
    assert Cells(s + [NUL, NUL])[..|s|] == Cells(s);
  }

  /** Copying `t` and its terminator after `head`, then terminating once
      more, leaves `head`, `t` and two terminators. */
  lemma TailLayout(before: seq<Option<char>>, head: seq<char>, t: seq<char>)
    requires |before| == |head| + |t| + 2
    requires before[..|head|] == Cells(head)
    ensures var n := |head| + |t| + 1;
            (before[..|head|] + Cells(t + [NUL]) + before[n..])[n := Some(NUL)]
              == Cells(head + t + [NUL, NUL])
  {
  }

  /** `fat::path_erased`: owns a path buffer and the size it hands back to
      the allocator when it is destroyed. */
  class PathErased {
    const path: array<Option<char>>
    const size: nat
    /** The destructor has run and the buffer is back with the allocator. */
    var released: bool

    constructor (path: array<Option<char>>, allocSize: nat)
      ensures this.path == path && size == allocSize && !released
    {
      this.path := path;
      size := allocSize;
      released := false;
    }

    /** `get_path`: the buffer given at construction, never a copy. */
    function GetPath(): array<Option<char>>
    {
      path
    }

    /** The destructor: gives the buffer back, declaring `freed` cells, the
        size recorded at construction. */
    method Release() returns (freed: nat)
      requires !released
      modifies this
      ensures released && freed == size
    {
      released := true;
      freed := size;
    }
  }

  /** Writes `s` into `buf` starting at cell `off`; nothing else changes. */
  method CopyInto(buf: array<Option<char>>, off: nat, s: seq<char>)
    requires off + |s| <= buf.Length
    modifies buf
    ensures buf[..] == old(buf[..])[..off] + Cells(s) + old(buf[..])[off + |s|..]
  {
    var i := 0;
    while i < |s|
      invariant 0 <= i <= |s|
      invariant buf[..] == old(buf[..])[..off] + Cells(s[..i]) + old(buf[..])[off + i..]
    {
      assert Cells(s[..i + 1]) == Cells(s[..i]) + [Some(s[i])];
      buf[off + i] := Some(s[i]);
      i := i + 1;
    }
    assert s[..i] == s;
  }

  /** The first half of `allocate_path` as written: copies `path` with its
      terminator and, unless `path` ends in `/`, overwrites the terminator
      with a `/`. Returns the count of cells used, counting the cell after
      the `/` that no longer holds a terminator. */
  method PutPath(buf: array<Option<char>>, path: seq<char>, trailed: bool) returns (bufSz: nat)
    requires |path| >= 1 && trailed == Trailed(path)
    requires |path| + 2 <= buf.Length && buf[..] == Blank(buf.Length)
    modifies buf
    ensures bufSz == |Head(path)| + 1
    ensures buf[..] == Cells(Head(path)) + [if trailed then Some(NUL) else None]
                       + Blank(buf.Length - bufSz)
  {
    bufSz := |path| + 1;
    CopyInto(buf, 0, path + [NUL]);
    if !trailed {
      buf[bufSz - 1] := Some(Slash);
      bufSz := bufSz + 1;
    }
  }

  /** The first half of `allocate_path` corrected: a terminator follows the
      `/` that overwrote the old one. */
  method PutPathCorrected(buf: array<Option<char>>, path: seq<char>, trailed: bool)
    returns (bufSz: nat)
    requires |path| >= 1 && trailed == Trailed(path)
    requires |path| + 2 <= buf.Length && buf[..] == Blank(buf.Length)
    modifies buf
    ensures bufSz == |Head(path)| + 1
    ensures buf[..] == Cells(Head(path) + [NUL]) + Blank(buf.Length - bufSz)
  {
    bufSz := |path| + 1;
    CopyInto(buf, 0, path + [NUL]);
    if !trailed {
      buf[bufSz - 1] := Some(Slash);
      buf[bufSz] := Some(NUL);
      bufSz := bufSz + 1;
    }
  }

  /** The tail step of `allocate_path`: steps back over the terminator at
      `bufSz - 1` and copies `t` with its own terminator from there. */
  method PutTail(buf: array<Option<char>>, bufSz: nat, t: seq<char>) returns (newSz: nat)
    requires 1 <= bufSz && bufSz + |t| <= buf.Length
    modifies buf
    ensures newSz == bufSz + |t|
    ensures buf[..] == old(buf[..])[..bufSz - 1] + Cells(t + [NUL]) + old(buf[..])[newSz..]
  {
    newSz := bufSz - 1;
    CopyInto(buf, newSz, t + [NUL]);
    newSz := newSz + |t| + 1;
  }

  /** What the steps of `allocate_path` as written leave in the buffer:
      `afterPath` after the path is copied, `unterminated` after the tail,
      `last` after the final terminator. */
  lemma AsWrittenLayout(path: seq<char>, tail: Option<seq<char>>,
                        afterPath: seq<Option<char>>, unterminated: seq<Option<char>>,
                        last: seq<Option<char>>)
    requires |path| >= 1 && |afterPath| == Allocation(path, tail)
    requires afterPath == Cells(Head(path)) + [if Trailed(path) then Some(NUL) else None]
                          + Blank(|afterPath| - |Head(path)| - 1)
    requires tail.Some? ==>
               var n := |Head(path)| + |tail.value| + 1;
               unterminated == afterPath[..|Head(path)|] + Cells(tail.value + [NUL]) + afterPath[n..]
    requires tail.None? ==> unterminated == afterPath
    requires |Head(path)| + TailLen(tail) + 1 < |unterminated|
    requires last == unterminated[|Head(path)| + TailLen(tail) + 1 := Some(NUL)]
    ensures tail.Some? || Trailed(path) ==> last == Cells(Joined(path, tail) + [NUL, NUL])
    ensures tail.None? && !Trailed(path) ==> last == Cells(path + [Slash]) + [None, Some(NUL)]
  {
    var head := Head(path);
    if tail.Some? {
      assert afterPath[..|head|] == Cells(head);
      TailLayout(afterPath, head, tail.value);
      assert Joined(path, tail) + [NUL, NUL] == head + tail.value + [NUL, NUL];
    } else if Trailed(path) {
      assert last == Cells(head + [NUL]) + [Some(NUL)];
      assert Cells(head + [NUL]) + [Some(NUL)] == Cells(head + [NUL, NUL]);
    } else {
      assert last == Cells(head) + [None, Some(NUL)];
    }
  }

  /** What the steps of the corrected `allocate_path` leave in the buffer. */
  lemma CorrectedLayout(path: seq<char>, tail: Option<seq<char>>,
                        afterPath: seq<Option<char>>, unterminated: seq<Option<char>>,
                        last: seq<Option<char>>)
    requires |path| >= 1 && |afterPath| == Allocation(path, tail)
    requires afterPath == Cells(Head(path) + [NUL]) + Blank(|afterPath| - |Head(path)| - 1)
    requires tail.Some? ==>
               var n := |Head(path)| + |tail.value| + 1;
               unterminated == afterPath[..|Head(path)|] + Cells(tail.value + [NUL]) + afterPath[n..]
    requires tail.None? ==> unterminated == afterPath
    requires |Head(path)| + TailLen(tail) + 1 < |unterminated|
    requires last == unterminated[|Head(path)| + TailLen(tail) + 1 := Some(NUL)]
    requires IsCString(path) && (tail.Some? ==> IsCString(tail.value))
    ensures last == Cells(Joined(path, tail) + [NUL, NUL])
    ensures HoldsCString(last, Joined(path, tail))
  {
    JoinedParts(path, tail);
    TerminatedHolds(Joined(path, tail));
    var head := Head(path);
    if tail.Some? {
      assert afterPath[..|head|] == Cells(head);
      TailLayout(afterPath, head, tail.value);
      assert Joined(path, tail) + [NUL, NUL] == head + tail.value + [NUL, NUL];
    } else {
      assert last == Cells(head + [NUL]) + [Some(NUL)];
      assert Cells(head + [NUL]) + [Some(NUL)] == Cells(head + [NUL, NUL]);
    }
  }

  /** `allocate_path` as written. With a tail, or with a path that already
      ends in `/`, the buffer holds the joined path and two terminators.
      With neither, the `/` overwrites the path's terminator and the final
      NUL lands one cell too far, so the cell after the `/` is never
      written. Either way the handle records one cell less than was
      allocated. */
  method AllocatePath(path: seq<char>, tail: Option<seq<char>>)
    returns (buf: array<Option<char>>, handle: PathErased)
    requires |path| >= 1 && IsCString(path)
    requires tail.Some? ==> IsCString(tail.value)
    ensures fresh(buf) && fresh(handle)
    ensures buf.Length == Allocation(path, tail)
    ensures handle.GetPath() == buf && !handle.released
    ensures handle.size == buf.Length - 1
    ensures tail.Some? || Trailed(path) ==> buf[..] == Cells(Joined(path, tail) + [NUL, NUL])
    ensures tail.None? && !Trailed(path) ==> buf[..] == Cells(path + [Slash]) + [None, Some(NUL)]
  {
    var bufSz := |path| + 1;
    var trailed := path[bufSz - 2] == Slash;
    var tailSz := (if tail.Some? then |tail.value| else 0) + 1;
    buf := new Option<char>[bufSz + tailSz + (if trailed then 0 else 1)](_ => None);
    assert buf[..] == Blank(buf.Length);

    bufSz := PutPath(buf, path, trailed);
    ghost var afterPath := buf[..];
    if tail.Some? {
      bufSz := PutTail(buf, bufSz, tail.value);
    }
    ghost var unterminated := buf[..];
    buf[bufSz] := Some(NUL);
    AsWrittenLayout(path, tail, afterPath, unterminated, buf[..]);
    handle := new PathErased(buf, bufSz);
  }

  /** `allocate_path` corrected: a new terminator goes right after the `/`
      that overwrote the old one, and the handle records the size actually
      allocated. Every cell is then written, the buffer always holds the
      joined path, and the allocator gets back what it handed out. */
  method AllocatePathCorrected(path: seq<char>, tail: Option<seq<char>>)
    returns (buf: array<Option<char>>, handle: PathErased)
    requires |path| >= 1 && IsCString(path)
    requires tail.Some? ==> IsCString(tail.value)
    ensures fresh(buf) && fresh(handle)
    ensures buf.Length == Allocation(path, tail)
    ensures handle.GetPath() == buf && !handle.released
    ensures handle.size == buf.Length
    ensures buf[..] == Cells(Joined(path, tail) + [NUL, NUL])
    ensures HoldsCString(buf[..], Joined(path, tail))
  {
    var bufSz := |path| + 1;
    var trailed := path[bufSz - 2] == Slash;
    var tailSz := (if tail.Some? then |tail.value| else 0) + 1;
    var allocSz := bufSz + tailSz + (if trailed then 0 else 1);
    buf := new Option<char>[allocSz](_ => None);
    assert buf[..] == Blank(buf.Length);

    bufSz := PutPathCorrected(buf, path, trailed);
    ghost var afterPath := buf[..];
    if tail.Some? {
      bufSz := PutTail(buf, bufSz, tail.value);
    }
    ghost var unterminated := buf[..];
    buf[bufSz] := Some(NUL);
    CorrectedLayout(path, tail, afterPath, unterminated, buf[..]);
    handle := new PathErased(buf, allocSz);
  }
}
