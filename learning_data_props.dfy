/** What `loadLearningData` (app/src/app/api/chat/route.ts, lines 7-40)
    guarantees, stated about the walk `Trace` that its loop is proved to
    follow. */
module LearningDataProps {
  import opened LearningData

  /** The listing with every entry not ending in ".txt" dropped. */
  function TxtOnly(entries: seq<DirEntry>): (r: seq<DirEntry>)
    ensures |r| <= |entries|
    ensures forall j :: 0 <= j < |r| ==> EndsWithTxt(r[j].name)
  {
    if entries == [] then []
    else if EndsWithTxt(entries[0].name) then [entries[0]] + TxtOnly(entries[1..])
    else TxtOnly(entries[1..])
  }

  /** Total number of file-content characters in appended blocks. */
  function ContentLength(t: seq<Piece>): nat {
    if t == [] then 0 else |t[0].part| + ContentLength(t[1..])
  }

  /** Total number of characters of framing and file names. */
  function Overhead(t: seq<Piece>): nat {
    if t == [] then 0 else |t[0].name| + 11 + Overhead(t[1..])
  }

  /** `p` is the block appended for entry `e`: same name, the read
      succeeded, the block was appended below the budget, and its part is
      the content cut to exactly the budget left at `p.offset`. */
  predicate Kept(p: Piece, e: DirEntry) {
    && p.name == e.name
    && e.file.Contents?
    && p.offset < MAX_SIZE
    && p.part == Truncate(e.file.text, MAX_SIZE - p.offset)
  }

  /** The ".txt" filter keeps exactly the listing's ".txt" entries. */
  lemma {:induction false} TxtOnlyMembers(entries: seq<DirEntry>)
    ensures forall e :: e in TxtOnly(entries) <==> e in entries && EndsWithTxt(e.name)
    decreases |entries|
  {
    if entries != [] {
      TxtOnlyMembers(entries[1..]);
      assert entries == [entries[0]] + entries[1..];
    }
  }

  /** The ".txt" filter keeps listing order: filtering a concatenation is
      concatenating the filtered parts. */
  lemma {:induction false} TxtOnlyConcat(xs: seq<DirEntry>, ys: seq<DirEntry>)
    ensures TxtOnly(xs + ys) == TxtOnly(xs) + TxtOnly(ys)
    decreases |xs|
  {
    if xs == [] {
      assert xs + ys == ys;
    } else {
      assert (xs + ys)[0] == xs[0] && (xs + ys)[1..] == xs[1..] + ys;
      TxtOnlyConcat(xs[1..], ys);
    }
  }

  lemma {:induction false} SaturatedAppendsNothing(entries: seq<DirEntry>, used: nat)
    requires used >= MAX_SIZE
    ensures Trace(entries, used) == []
    decreases |entries|
  {
    if entries != [] && !EndsWithTxt(entries[0].name) {
      SaturatedAppendsNothing(entries[1..], used);
    }
  }

  /** Entries not ending in ".txt" neither contribute nor use budget:
      the walk over the listing equals the walk over its ".txt" entries. */
  lemma {:induction false} NonTxtIgnored(entries: seq<DirEntry>, used: nat)
    ensures Trace(entries, used) == Trace(TxtOnly(entries), used)
    decreases |entries|
  {
    if entries != [] {
      var e := entries[0];
      if !EndsWithTxt(e.name) {
        NonTxtIgnored(entries[1..], used);
      } else {
        var txt := TxtOnly(entries);
        assert txt == [e] + TxtOnly(entries[1..]);
        assert txt[0] == e && txt[1..] == TxtOnly(entries[1..]);
        if used < MAX_SIZE && e.file.Contents? {
          var part := Truncate(e.file.text, MAX_SIZE - used);
          var next := used + |Block(e.name, part)|;
          NonTxtIgnored(entries[1..], next);
          assert Trace(txt, used) == [Piece(e.name, part, used)] + Trace(txt[1..], next);
        }
      }
    }
  }

  /** Inserting an entry that does not end in ".txt" anywhere in the
      listing changes nothing. */
  lemma {:induction false} NonTxtInsertIgnored(entries: seq<DirEntry>, k: nat, e: DirEntry, used: nat)
    requires k <= |entries| && !EndsWithTxt(e.name)
    ensures Trace(entries[..k] + [e] + entries[k..], used) == Trace(entries, used)
    decreases k
  {
    var s := entries[..k] + [e] + entries[k..];
    if k == 0 {
      assert s[0] == e && s[1..] == entries;
    } else {
      var rest := entries[1..];
      assert s[0] == entries[0];
      assert s[1..] == rest[..k - 1] + [e] + rest[k - 1..];
      var h := entries[0];
      if !EndsWithTxt(h.name) {
        NonTxtInsertIgnored(rest, k - 1, e, used);
      } else if used < MAX_SIZE && h.file.Contents? {
        var part := Truncate(h.file.text, MAX_SIZE - used);
        NonTxtInsertIgnored(rest, k - 1, e, used + |Block(h.name, part)|);
      }
    }
  }

  /** Once the accumulated length has reached `MAX_SIZE` after the first
      `k` entries, no later entry, ".txt" or not, contributes anything. */
  lemma {:induction false} NothingAfterBudget(entries: seq<DirEntry>, k: nat, used: nat)
    requires k <= |entries|
    requires used + |Render(Trace(entries[..k], used))| >= MAX_SIZE
    ensures Trace(entries, used) == Trace(entries[..k], used)
    decreases k
  {
    if k == 0 {
      SaturatedAppendsNothing(entries, used);
    } else {
      var h := entries[0];
      var pre := entries[..k];
      var rest := entries[1..];
      assert pre[0] == h && pre[1..] == rest[..k - 1];
      if !EndsWithTxt(h.name) {
        NothingAfterBudget(rest, k - 1, used);
      } else if used < MAX_SIZE && h.file.Contents? {
        var part := Truncate(h.file.text, MAX_SIZE - used);
        var p := Piece(h.name, part, used);
        var next := used + |Block(h.name, part)|;
        var later := Trace(rest[..k - 1], next);
        assert Trace(pre, used) == [p] + later;
        RenderCons(p, later);
        assert next + |Render(later)| == used + |Render(Trace(pre, used))|;
        NothingAfterBudget(rest, k - 1, next);
        assert Trace(entries, used) == [p] + Trace(rest, next);
      }
    }
  }

  /** A ".txt" entry whose read throws ends the walk: the result is exactly
      what the entries before it produced. */
  lemma {:induction false} ReadFailureKeepsEarlier(entries: seq<DirEntry>, k: nat, used: nat)
    requires k < |entries| && EndsWithTxt(entries[k].name) && entries[k].file.ReadError?
    ensures Trace(entries, used) == Trace(entries[..k], used)
    decreases k
  {
    var h := entries[0];
    if k > 0 {
      var pre := entries[..k];
      assert pre[0] == h && pre[1..] == entries[1..][..k - 1];
      if !EndsWithTxt(h.name) {
        ReadFailureKeepsEarlier(entries[1..], k - 1, used);
      } else if used < MAX_SIZE && h.file.Contents? {
        var part := Truncate(h.file.text, MAX_SIZE - used);
        ReadFailureKeepsEarlier(entries[1..], k - 1, used + |Block(h.name, part)|);
      }
    }
  }

  /** The appended blocks belong, in listing order, to a prefix of the
      ".txt" entries, each holding a budgeted prefix of that file's content. */
  lemma {:induction false} TraceFollowsListing(entries: seq<DirEntry>, used: nat)
    ensures |Trace(entries, used)| <= |TxtOnly(entries)|
    ensures forall j :: 0 <= j < |Trace(entries, used)| ==>
              Kept(Trace(entries, used)[j], TxtOnly(entries)[j])
    decreases |entries|
  {
    if entries != [] {
      var e := entries[0];
      if !EndsWithTxt(e.name) {
        TraceFollowsListing(entries[1..], used);
      } else if used < MAX_SIZE && e.file.Contents? {
        var part := Truncate(e.file.text, MAX_SIZE - used);
        var next := used + |Block(e.name, part)|;
        TraceFollowsListing(entries[1..], next);
        var t := Trace(entries, used);
        var txt := TxtOnly(entries);
        assert t == [Piece(e.name, part, used)] + Trace(entries[1..], next);
        assert txt == [e] + TxtOnly(entries[1..]);
        forall j | 0 <= j < |t| ensures Kept(t[j], txt[j]) {
          if j > 0 {
            assert t[j] == Trace(entries[1..], next)[j - 1];
            assert txt[j] == TxtOnly(entries[1..])[j - 1];
          }
        }
      }
    }
  }

  /** Each block is appended where the previous one ended: the first at the
      starting length, each next one after the full length of the previous. */
  lemma {:induction false} TraceOffsets(entries: seq<DirEntry>, used: nat)
    ensures Trace(entries, used) != [] ==> Trace(entries, used)[0].offset == used
    ensures forall j :: 0 <= j < |Trace(entries, used)| - 1 ==>
              Trace(entries, used)[j + 1].offset
                == Trace(entries, used)[j].offset + |BlockOf(Trace(entries, used)[j])|
    decreases |entries|
  {
    if entries != [] {
      var e := entries[0];
      if !EndsWithTxt(e.name) {
        TraceOffsets(entries[1..], used);
      } else if used < MAX_SIZE && e.file.Contents? {
        var part := Truncate(e.file.text, MAX_SIZE - used);
        var next := used + |Block(e.name, part)|;
        TraceOffsets(entries[1..], next);
        var later := Trace(entries[1..], next);
        var t := Trace(entries, used);
        assert t == [Piece(e.name, part, used)] + later;
        forall j | 0 <= j < |t| - 1
          ensures t[j + 1].offset == t[j].offset + |BlockOf(t[j])|
        {
          if j > 0 {
            assert t[j] == later[j - 1] && t[j + 1] == later[j];
          }
        }
      }
    }
  }

  /** Only the last block can be cut short: every earlier one holds its
      file's whole content. */
  lemma OnlyLastTruncated(entries: seq<DirEntry>, used: nat)
    ensures forall j :: 0 <= j < |Trace(entries, used)| - 1 ==>
              j < |TxtOnly(entries)| && TxtOnly(entries)[j].file == Contents(Trace(entries, used)[j].part)
  {
    var t := Trace(entries, used);
    var txt := TxtOnly(entries);
    TraceFollowsListing(entries, used);
    TraceOffsets(entries, used);
    forall j | 0 <= j < |t| - 1 ensures j < |txt| && txt[j].file == Contents(t[j].part) {
      assert Kept(t[j], txt[j]);
      assert t[j + 1].offset < MAX_SIZE;
    }
  }

  /** The walk leaves out a ".txt" entry only for a cause: when it stops
      before the k-th ".txt" entry, that entry's read threw or the
      accumulated length had reached `MAX_SIZE`.  So the file that crosses
      the budget is cut, never dropped. */
  lemma {:induction false} StopsOnlyForACause(entries: seq<DirEntry>, used: nat)
    ensures var t := Trace(entries, used);
            |t| < |TxtOnly(entries)| ==>
              TxtOnly(entries)[|t|].file.ReadError? || used + |Render(t)| >= MAX_SIZE
    decreases |entries|
  {
    if entries != [] {
      var e := entries[0];
      if !EndsWithTxt(e.name) {
        StopsOnlyForACause(entries[1..], used);
      } else {
        assert TxtOnly(entries) == [e] + TxtOnly(entries[1..]);
        if used < MAX_SIZE && e.file.Contents? {
          var part := Truncate(e.file.text, MAX_SIZE - used);
          var next := used + |Block(e.name, part)|;
          StopsOnlyForACause(entries[1..], next);
          var later := Trace(entries[1..], next);
          var p := Piece(e.name, part, used);
          assert Trace(entries, used) == [p] + later;
          RenderCons(p, later);
        }
      }
    }
  }

  /** The content characters of the kept parts stay within the budget that
      was left at the start. */
  lemma {:induction false} ContentWithinBudget(entries: seq<DirEntry>, used: nat)
    ensures Trace(entries, used) == [] || used + ContentLength(Trace(entries, used)) <= MAX_SIZE
    decreases |entries|
  {
    if entries != [] {
      var e := entries[0];
      if !EndsWithTxt(e.name) {
        ContentWithinBudget(entries[1..], used);
      } else if used < MAX_SIZE && e.file.Contents? {
        var part := Truncate(e.file.text, MAX_SIZE - used);
        var next := used + |Block(e.name, part)|;
        ContentWithinBudget(entries[1..], next);
        var t := Trace(entries, used);
        assert t == [Piece(e.name, part, used)] + Trace(entries[1..], next);
        assert t[1..] == Trace(entries[1..], next);
      }
    }
  }

  /** The length exceeds the budget by at most the framing and name of the
      last block. */
  lemma {:induction false} LengthBound(entries: seq<DirEntry>, used: nat)
    ensures var t := Trace(entries, used);
            t != [] ==> used + |Render(t)| <= MAX_SIZE + 11 + |t[|t| - 1].name|
    decreases |entries|
  {
    if entries != [] {
      var e := entries[0];
      if !EndsWithTxt(e.name) {
        LengthBound(entries[1..], used);
      } else if used < MAX_SIZE && e.file.Contents? {
        var part := Truncate(e.file.text, MAX_SIZE - used);
        var next := used + |Block(e.name, part)|;
        LengthBound(entries[1..], next);
        var later := Trace(entries[1..], next);
        var p := Piece(e.name, part, used);
        assert Trace(entries, used) == [p] + later;
        RenderCons(p, later);
        if later != [] {
          assert ([p] + later)[|later|] == later[|later| - 1];
        }
      }
    }
  }

  /** The bounds for the whole of `loadLearningData`: at most `MAX_SIZE`
      content characters, and a total length of at most `MAX_SIZE` plus the
      framing and name of the last block (not at most `MAX_SIZE`). */
  lemma LearnedBounds(dir: Directory)
    ensures dir.Listing? ==> ContentLength(Trace(dir.entries, 0)) <= MAX_SIZE
    ensures dir.Listing? && Trace(dir.entries, 0) != [] ==>
              var t := Trace(dir.entries, 0);
              |Learned(dir)| <= MAX_SIZE + 11 + |t[|t| - 1].name|
    ensures !dir.Listing? ==> Learned(dir) == ""
  {
    if dir.Listing? {
      ContentWithinBudget(dir.entries, 0);
      LengthBound(dir.entries, 0);
    }
  }

  /** The length of the output is the content characters plus eleven
      framing characters and the name per block. */
  lemma {:induction false} RenderLength(t: seq<Piece>)
    ensures |Render(t)| == ContentLength(t) + Overhead(t)
  {
    if t != [] {
      RenderLength(t[1..]);
    }
  }

  /** Every ".txt" entry can be read. */
  predicate AllTxtReadable(entries: seq<DirEntry>) {
    forall j :: 0 <= j < |entries| && EndsWithTxt(entries[j].name) ==> entries[j].file.Contents?
  }

  /** The full, untruncated blocks of all ".txt" entries in listing order. */
  function FullBlocks(entries: seq<DirEntry>): string
    requires AllTxtReadable(entries)
  {
    if entries == [] then ""
    else if EndsWithTxt(entries[0].name) then
      Block(entries[0].name, entries[0].file.text) + FullBlocks(entries[1..])
    else FullBlocks(entries[1..])
  }

  /** When all the ".txt" files fit, every one is included whole, in
      listing order. */
  lemma {:induction false} AllFitAllIncluded(entries: seq<DirEntry>, used: nat)
    requires AllTxtReadable(entries)
    requires used + |FullBlocks(entries)| <= MAX_SIZE
    ensures Render(Trace(entries, used)) == FullBlocks(entries)
    decreases |entries|
  {
    if entries != [] {
      var e := entries[0];
      assert AllTxtReadable(entries[1..]) by {
        forall j | 0 <= j < |entries[1..]| && EndsWithTxt(entries[1..][j].name)
          ensures entries[1..][j].file.Contents?
        {
          assert entries[1..][j] == entries[j + 1];
        }
      }
      if !EndsWithTxt(e.name) {
        AllFitAllIncluded(entries[1..], used);
      } else {
        assert e.file.Contents?;
        var b := Block(e.name, e.file.text);
        assert Truncate(e.file.text, MAX_SIZE - used) == e.file.text;
        AllFitAllIncluded(entries[1..], used + |b|);
        var later := Trace(entries[1..], used + |b|);
        assert Trace(entries, used) == [Piece(e.name, e.file.text, used)] + later;
        RenderCons(Piece(e.name, e.file.text, used), later);
      }
    }
  }

  /** When the first entry is a ".txt" file at least as long as the budget,
      the output is that file's first `MAX_SIZE` characters in one block and
      nothing else, which is longer than `MAX_SIZE`. */
  lemma FirstFileOverBudget(entries: seq<DirEntry>)
    requires |entries| > 0 && EndsWithTxt(entries[0].name)
    requires entries[0].file.Contents? && |entries[0].file.text| >= MAX_SIZE
    ensures Learned(Listing(entries)) == Block(entries[0].name, entries[0].file.text[..MAX_SIZE])
    ensures |Learned(Listing(entries))| == MAX_SIZE + 11 + |entries[0].name| > MAX_SIZE
  {
    var e := entries[0];
    var part := Truncate(e.file.text, MAX_SIZE);
    var b := Block(e.name, part);
    SaturatedAppendsNothing(entries[1..], |b|);
    assert Trace(entries, 0) == [Piece(e.name, part, 0)];
    RenderCons(Piece(e.name, part, 0), []);
  }

  /** The names and framing of earlier blocks count against the room left
      for later files: a first file of `MAX_SIZE - 5` characters leaves no
      room, so a second file of at most four characters is skipped although
      the two contents together are under `MAX_SIZE`. */
  lemma EarlierFramingCounts(first: string, second: string)
    requires |first| == MAX_SIZE - 5 && 0 < |second| < 5
    ensures |first| + |second| < MAX_SIZE
    ensures Learned(Listing([DirEntry("a.txt", Contents(first)), DirEntry("b.txt", Contents(second))]))
            == Block("a.txt", first)
  {
    var entries := [DirEntry("a.txt", Contents(first)), DirEntry("b.txt", Contents(second))];
    assert EndsWithTxt("a.txt") && EndsWithTxt("b.txt");
    var b := Block("a.txt", first);
    SaturatedAppendsNothing(entries[1..], |b|);
    assert Trace(entries, 0) == [Piece("a.txt", first, 0)];
    RenderCons(Piece("a.txt", first, 0), []);
  }
}
