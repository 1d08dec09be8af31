/** The bounded reference-text aggregator `loadLearningData`
    (app/src/app/api/chat/route.ts, lines 7-40).

    The directory `data/learning` is an input value: whether it exists, the
    listing in the order the platform returns it, and for every entry what
    reading it would give.  A `char` stands for one UTF-16 code unit, the unit
    of JavaScript's `length` and `slice`. */
module LearningData {

  /** The character budget `MAX_SIZE`. */
  const MAX_SIZE: nat := 150000

  /** The only extension that is aggregated. */
  const TXT: string := ".txt"

  /** What `readFileSync` gives for one entry: its text, or an exception. */
  datatype FileRead = Contents(text: string) | ReadError

  datatype DirEntry = DirEntry(name: string, file: FileRead)

  /** The reference directory: absent (`existsSync` is false), present but
      `readdirSync` throws, or listed. */
  datatype Directory = Missing | Unlistable | Listing(entries: seq<DirEntry>)

  /** One block the loop appended: the file name, the part of its content
      that was kept, and the accumulated length just before the append. */
  datatype Piece = Piece(name: string, part: string, offset: nat)

  /** `file.endsWith(".txt")` */
  predicate EndsWithTxt(name: string) {
    |name| >= |TXT| && name[|name| - |TXT|..] == TXT
  }

  /** A name passes the filter exactly when some suffix of it is ".txt",
      and appending ".txt" to any stem makes it pass. */
  lemma EndsWithTxtMeaning(name: string, stem: string)
    ensures EndsWithTxt(name) <==> exists k :: 0 <= k <= |name| && name[k..] == TXT
    ensures EndsWithTxt(stem + TXT)
  {
  }

  /** `content.slice(0, room)`: the longest prefix of `text` of at most
      `room` characters. */
  function Truncate(text: string, room: nat): (part: string)
    ensures |part| == if |text| <= room then |text| else room
    ensures part == text[..|part|]
  {
    if |text| <= room then text else text[..room]
  }

  /** The template `\n--- ${file} ---\n${truncatedContent}\n`: eleven
      characters of framing around the name and the kept content. */
  function Block(name: string, part: string): (b: string)
    ensures |b| == |name| + |part| + 11
  {
    "\n--- " + name + " ---\n" + part + "\n"
  }

  /** Where the name and the kept part sit inside a block. */
  lemma BlockLayout(name: string, part: string)
    ensures var b := Block(name, part);
            b[..5] == "\n--- " && b[5..5 + |name|] == name
            && b[5 + |name|..10 + |name|] == " ---\n"
            && b[10 + |name|..|b| - 1] == part && b[|b| - 1] == '\n'
  {
  }

  function BlockOf(p: Piece): string {
    Block(p.name, p.part)
  }

  /** The blocks appended when the loop meets `entries` with an accumulator
      of length `used`.  Entries not ending in ".txt" are passed over; at a
      ".txt" entry the loop breaks once the budget is reached, the catch
      block ends it when the read throws, and otherwise one block with the
      content cut to the remaining budget is appended. */
  function Trace(entries: seq<DirEntry>, used: nat): (t: seq<Piece>)
    ensures |t| <= |entries|
    decreases |entries|
  {
    if entries == [] then []
    else if !EndsWithTxt(entries[0].name) then Trace(entries[1..], used)
    else if used >= MAX_SIZE then []
    else
      match entries[0].file
      case ReadError => []
      case Contents(text) =>
        var part := Truncate(text, MAX_SIZE - used);
        [Piece(entries[0].name, part, used)]
          + Trace(entries[1..], used + |Block(entries[0].name, part)|)
  }

  /** The text of a sequence of appended blocks, in order. */
  function Render(t: seq<Piece>): string {
    if t == [] then "" else BlockOf(t[0]) + Render(t[1..])
  }

  /** What `loadLearningData` returns for a directory. */
  function Learned(dir: Directory): (learned: string)
    ensures dir.Missing? || dir.Unlistable? ==> learned == ""
  {
    match dir
    case Listing(entries) => Render(Trace(entries, 0))
    case _ => ""
  }

  /** Rendering a block in front of others puts its text in front. */
  lemma RenderCons(p: Piece, t: seq<Piece>)
    ensures Render([p] + t) == BlockOf(p) + Render(t)
  {
  }

  /** The final result of the loop when it is about to consider entry `i`
      with accumulator `acc`. */
  ghost function Pending(entries: seq<DirEntry>, i: nat, acc: string): string
    requires i <= |entries|
  {
    acc + Render(Trace(entries[i..], |acc|))
  }

  /** Before the first entry, the pending result is the whole walk. */
  lemma PendingStart(entries: seq<DirEntry>)
    ensures Pending(entries, 0, "") == Render(Trace(entries, 0))
  {
  }

  /** After the last entry, the pending result is the accumulator. */
  lemma PendingEnd(entries: seq<DirEntry>, acc: string)
    ensures Pending(entries, |entries|, acc) == acc
  {
  }

  /** One step of the walk at a name that does not end in ".txt". */
  lemma PendingSkip(entries: seq<DirEntry>, i: nat, acc: string)
    requires i < |entries| && !EndsWithTxt(entries[i].name)
    ensures Pending(entries, i, acc) == Pending(entries, i + 1, acc)
  {
  }

  /** One step of the walk at a ".txt" entry where the loop breaks. */
  lemma PendingStop(entries: seq<DirEntry>, i: nat, acc: string)
    requires i < |entries| && EndsWithTxt(entries[i].name)
    requires |acc| >= MAX_SIZE || entries[i].file.ReadError?
    ensures Pending(entries, i, acc) == acc
  {
  }

  /** One step of the walk at a ".txt" entry that is appended. */
  lemma PendingAppend(entries: seq<DirEntry>, i: nat, acc: string)
    requires i < |entries| && EndsWithTxt(entries[i].name)
    requires |acc| < MAX_SIZE && entries[i].file.Contents?
    ensures Pending(entries, i, acc)
            == Pending(entries, i + 1,
                       acc + Block(entries[i].name, Truncate(entries[i].file.text, MAX_SIZE - |acc|)))
  {
  }

  /** `loadLearningData`: walk the listing, append a budgeted block per
      ".txt" file, stop at the budget; a throwing read ends the walk and
      what was accumulated so far is returned. */
  method LoadLearningData(dir: Directory) returns (learningContent: string)
    ensures learningContent == Learned(dir)
  {
    learningContent := "";
    if dir.Listing? {
      var files := dir.entries;
      PendingStart(files);
      for i := 0 to |files|
        invariant Pending(files, i, learningContent) == Learned(dir)
      {
        var file := files[i];
        if EndsWithTxt(file.name) {
          if |learningContent| >= MAX_SIZE {
            PendingStop(files, i, learningContent);
            break;
          }
          if file.file.ReadError? {
            PendingStop(files, i, learningContent);
            break;
          }
          var content := file.file.text;
          var remainingSpace := MAX_SIZE - |learningContent|;
          var truncatedContent := Truncate(content, remainingSpace);
          PendingAppend(files, i, learningContent);
          learningContent := learningContent + Block(file.name, truncatedContent);
        } else {
          PendingSkip(files, i, learningContent);
        }
      }
      PendingEnd(files, learningContent);
    }
  }
}
