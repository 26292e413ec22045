/** The knowledge-base chunker: a text is cut into paragraphs at blank lines
    ("\n\n"), each paragraph is stripped, blank ones are dropped, and the rest
    are packed greedily, in order, into chunks whose length stays under the
    chunk size. A paragraph longer than the chunk size becomes a chunk of its
    own. */
module DocumentChunks {
  import opened Text
  import opened Seqs

  const Separator: string := "\n\n"
  const DefaultChunkSize: int := 500
  const KnowledgeBase: string := "knowledge_base"

  datatype Metadata = Metadata(source: string, kind: string)
  datatype Chunk = Chunk(content: string, metadata: Metadata)

  /** A stripped, non-blank paragraph: it holds no blank line and neither
      begins nor ends with white space. */
  predicate Clean(p: string) {
    p != [] && !Contains(p, Separator) && !PySpace(p[0]) && !PySpace(p[|p| - 1])
  }

  predicate AllClean(ps: seq<string>) {
    forall k :: 0 <= k < |ps| ==> Clean(ps[k])
  }

  predicate NoSeparator(ps: seq<string>) {
    forall k :: 0 <= k < |ps| ==> !Contains(ps[k], Separator)
  }

  /** Every piece stripped of surrounding white space. */
  function StripAll(pieces: seq<string>): (r: seq<string>)
    ensures |r| == |pieces|
    ensures forall k :: 0 <= k < |pieces| ==> r[k] == PyStrip(pieces[k])
  {
    seq(|pieces|, k requires 0 <= k < |pieces| => PyStrip(pieces[k]))
  }

  /** The non-empty strings of `ss`, in order. */
  function NonEmpty(ss: seq<string>): (r: seq<string>)
    ensures |r| <= |ss|
  {
    if ss == [] then []
    else
      var rest := NonEmpty(ss[..|ss| - 1]);
      if ss[|ss| - 1] == [] then rest else rest + [ss[|ss| - 1]]
  }

  /** Stripping keeps pieces free of the separator, so the kept paragraphs
      are clean. */
  lemma {:induction false} NonEmptyClean(pieces: seq<string>)
    requires NoSeparator(pieces)
    ensures AllClean(NonEmpty(StripAll(pieces)))
    decreases |pieces|
  {
    if pieces != [] {
      var n := |pieces| - 1;
      assert StripAll(pieces)[..n] == StripAll(pieces[..n]);
      NonEmptyClean(pieces[..n]);
      TrimKeepsAbsence(pieces[n], PySpace, Separator);
    }
  }

  /** The paragraphs of `content` that the chunker keeps: the pieces between
      blank lines, stripped, without the empty ones. */
  function Paragraphs(content: string): (r: seq<string>)
    ensures AllClean(r)
  {
    NonEmptyClean(Split(content, Separator));
    NonEmpty(StripAll(Split(content, Separator)))
  }

  /** The paragraphs one chunk holds, read back by splitting its content. */
  function ParagraphsOf(c: Chunk): (r: seq<string>)
    ensures r != []
  {
    Split(c.content, Separator)
  }

  /** The paragraphs of all chunks, chunk after chunk. */
  function ChunkParagraphs(chunks: seq<Chunk>): seq<string> {
    if chunks == [] then []
    else ChunkParagraphs(chunks[..|chunks| - 1]) + ParagraphsOf(chunks[|chunks| - 1])
  }

  function Flatten(groups: seq<seq<string>>): seq<string> {
    if groups == [] then [] else Flatten(groups[..|groups| - 1]) + groups[|groups| - 1]
  }

  /** A clean paragraph followed by the separator has no earlier occurrence of
      the separator. */
  lemma CleanEndsCleanly(p: string)
    requires Clean(p)
    ensures EndsCleanly(p, Separator)
  {
    forall k: nat | k < |p| ensures !OccursAt(p + Separator, Separator, k) {
      if k + 2 <= |p| {
        OccursInPrefix(p, Separator, Separator, k);
        assert !OccursAt(p, Separator, k);
      } else {
        assert (p + Separator)[k] == p[|p| - 1];
      }
    }
  }

  /** A chunk's content splits back into exactly the paragraphs joined into it. */
  lemma SplitGroup(group: seq<string>)
    requires group != [] && AllClean(group)
    ensures Split(Join(group, Separator), Separator) == group
  {
    forall k | 0 <= k < |group| - 1 ensures EndsCleanly(group[k], Separator) {
      CleanEndsCleanly(group[k]);
    }
    SplitJoin(group, Separator);
  }

  /** Stripping a join of clean paragraphs followed by the separator removes
      exactly that trailing separator. */
  lemma StripGroup(group: seq<string>)
    requires group != [] && AllClean(group)
    ensures PyStrip(Join(group, Separator) + Separator) == Join(group, Separator)
  {
    var x := Join(group, Separator);
    JoinEnds(group, Separator);
    var s := x + Separator;
    assert LeadingCount(s, PySpace) == 0 by { assert s[0] == x[0]; }
    assert s[0..] == s;
    assert s[..|s| - 1] == x + "\n";
    assert (x + "\n")[..|x|] == x;
    assert TrailingCount(x, PySpace) == 0;
    assert TrailingCount(x + "\n", PySpace) == 1;
    assert TrailingCount(s, PySpace) == 2;
    assert s[..|s| - 2] == x;
  }

  predicate GroupChunk(group: seq<string>, c: Chunk, source: string) {
    group != [] && AllClean(group)
    && c == Chunk(Join(group, Separator), Metadata(source, KnowledgeBase))
  }

  /** What holds of the chunks emitted so far: each is the join of a group of
      clean paragraphs; a chunk of two or more paragraphs is shorter than the
      chunk size; and each chunk's successor begins with a paragraph that did
      not fit into it. */
  predicate Packed(chunks: seq<Chunk>, groups: seq<seq<string>>, source: string, chunkSize: int) {
    && |groups| == |chunks|
    && (forall j :: 0 <= j < |chunks| ==> GroupChunk(groups[j], chunks[j], source))
    && (forall j :: 0 <= j < |chunks| && |groups[j]| >= 2 ==> |chunks[j].content| < chunkSize)
    && (forall j, k :: 0 <= j < |chunks| && 0 <= k < |chunks| && k == j + 1 ==> |chunks[j].content| + |Separator| + |groups[k][0]| >= chunkSize)
  }

  lemma PackedSnoc(chunks: seq<Chunk>, groups: seq<seq<string>>, group: seq<string>, source: string, chunkSize: int)
    requires Packed(chunks, groups, source, chunkSize)
    requires group != [] && AllClean(group)
    requires |group| >= 2 ==> |Join(group, Separator)| < chunkSize
    requires chunks != [] ==> |chunks[|chunks| - 1].content| + |Separator| + |group[0]| >= chunkSize
    ensures Packed(chunks + [Chunk(Join(group, Separator), Metadata(source, KnowledgeBase))], groups + [group], source, chunkSize)
  {
    var chunks', groups' := chunks + [Chunk(Join(group, Separator), Metadata(source, KnowledgeBase))], groups + [group];
    forall j | 0 <= j < |chunks'|
      ensures GroupChunk(groups'[j], chunks'[j], source)
      ensures |groups'[j]| >= 2 ==> |chunks'[j].content| < chunkSize
    {
      if j < |chunks| {
        assert chunks'[j] == chunks[j] && groups'[j] == groups[j];
      }
    }
    forall j, k | 0 <= j < |chunks'| && 0 <= k < |chunks'| && k == j + 1
      ensures |chunks'[j].content| + |Separator| + |groups'[k][0]| >= chunkSize
    {
      assert chunks'[j] == chunks[j];
      if k < |chunks| {
        assert groups'[k] == groups[k];
      }
    }
  }

  lemma {:induction false} ChunksFlatten(chunks: seq<Chunk>, groups: seq<seq<string>>, source: string)
    requires |groups| == |chunks|
    requires forall j :: 0 <= j < |chunks| ==> GroupChunk(groups[j], chunks[j], source)
    ensures ChunkParagraphs(chunks) == Flatten(groups)
    decreases |chunks|
  {
    if chunks != [] {
      var n := |chunks| - 1;
      ChunksFlatten(chunks[..n], groups[..n], source);
      SplitGroup(groups[n]);
    }
  }

  /** The loop state of the chunker: the chunks emitted so far are packed,
      and `current` is either empty or the open group joined and followed by
      the separator. */
  predicate Pending(chunks: seq<Chunk>, current: string, groups: seq<seq<string>>, group: seq<string>,
                    source: string, chunkSize: int) {
    && Packed(chunks, groups, source, chunkSize)
    && (group == [] <==> current == "")
    && (group != [] ==> AllClean(group) && current == Join(group, Separator) + Separator)
    && (|group| >= 2 ==> |current| - |Separator| < chunkSize)
    && (chunks != [] ==> group != [] && |chunks[|chunks| - 1].content| + |Separator| + |group[0]| >= chunkSize)
  }

  /** Each packed chunk reads back as its group. */
  lemma PackedGroups(chunks: seq<Chunk>, groups: seq<seq<string>>, source: string, chunkSize: int)
    requires Packed(chunks, groups, source, chunkSize)
    ensures forall j :: 0 <= j < |chunks| ==> ParagraphsOf(chunks[j]) == groups[j] && chunks[j].content != []
  {
    forall j | 0 <= j < |chunks| ensures ParagraphsOf(chunks[j]) == groups[j] && chunks[j].content != [] {
      SplitGroup(groups[j]);
      JoinEnds(groups[j], Separator);
    }
  }

  /** What packed chunks guarantee, stated on the chunks alone. */
  lemma PackedChunks(chunks: seq<Chunk>, groups: seq<seq<string>>, source: string, chunkSize: int)
    requires Packed(chunks, groups, source, chunkSize)
    ensures forall j :: 0 <= j < |chunks| ==> chunks[j].content != []
    ensures forall j :: 0 <= j < |chunks| ==> chunks[j].metadata == Metadata(source, KnowledgeBase)
    ensures ChunkParagraphs(chunks) == Flatten(groups)
    ensures chunks == [] <==> Flatten(groups) == []
    ensures forall j :: 0 <= j < |chunks| && |ParagraphsOf(chunks[j])| >= 2 ==> |chunks[j].content| < chunkSize
    ensures forall j, k :: 0 <= j < |chunks| && 0 <= k < |chunks| && k == j + 1 ==>
              |chunks[j].content| + |Separator| + |ParagraphsOf(chunks[k])[0]| >= chunkSize
  {
    PackedGroups(chunks, groups, source, chunkSize);
    ChunksFlatten(chunks, groups, source);
    if chunks != [] {
      assert ChunkParagraphs(chunks) != [];
    }
  }

  /** A paragraph that fits joins the open group. */
  lemma PendingAppend(chunks: seq<Chunk>, current: string, groups: seq<seq<string>>, group: seq<string>,
                      para: string, source: string, chunkSize: int)
    requires Pending(chunks, current, groups, group, source, chunkSize)
    requires Clean(para) && |current| + |para| < chunkSize
    ensures Pending(chunks, current + para + Separator, groups, group + [para], source, chunkSize)
  {
    if group != [] {
      JoinSnoc(group, para, Separator);
    } else {
      assert current + para + Separator == Join([para], Separator) + Separator;
    }
    assert forall k :: 0 <= k < |group + [para]| ==> (group + [para])[k] == if k < |group| then group[k] else para;
  }

  /** A paragraph that does not fit opens a new group after the emitted chunk. */
  lemma PendingRestart(chunks: seq<Chunk>, groups: seq<seq<string>>, para: string, source: string, chunkSize: int)
    requires Packed(chunks, groups, source, chunkSize) && Clean(para)
    requires chunks != [] ==> |chunks[|chunks| - 1].content| + |Separator| + |para| >= chunkSize
    ensures Pending(chunks, para + Separator, groups, [para], source, chunkSize)
  {
  }

  /** Growing the list by one keeps that string when it is not empty. */
  lemma NonEmptyStep(ss: seq<string>, i: nat)
    requires i < |ss|
    ensures NonEmpty(ss[..i + 1]) == NonEmpty(ss[..i]) + (if ss[i] == [] then [] else [ss[i]])
  {
    assert ss[..i + 1][..i] == ss[..i];
  }
}

/** The chunking loop of `_chunk_document`, proved against the
    specification in `DocumentChunks`. */
module DocumentLoader {
  import opened Text
  import opened Seqs
  import opened DocumentChunks

  /** Closes the open chunk: when `current` is not empty its stripped text is
      emitted as a chunk with the knowledge-base metadata. */
  method Emit(chunks: seq<Chunk>, current: string, source: string, chunkSize: int,
              ghost groups: seq<seq<string>>, ghost group: seq<string>)
    returns (chunks': seq<Chunk>, ghost groups': seq<seq<string>>)
    requires Pending(chunks, current, groups, group, source, chunkSize)
    ensures Packed(chunks', groups', source, chunkSize)
    ensures Flatten(groups') == Flatten(groups) + group
    ensures current == "" ==> chunks' == chunks
    ensures current != "" ==> chunks' == chunks + [Chunk(PyStrip(current), Metadata(source, KnowledgeBase))]
    ensures current != "" ==> |chunks'[|chunks'| - 1].content| == |current| - |Separator|
    ensures current == "" ==> chunks == []
  {
    chunks', groups' := chunks, groups;
    if current != "" {
      StripGroup(group);
      PackedSnoc(chunks, groups, group, source, chunkSize);
      assert Flatten(groups + [group]) == Flatten(groups) + group;
      chunks' := chunks + [Chunk(PyStrip(current), Metadata(source, KnowledgeBase))];
      groups' := groups + [group];
    }
  }

  /** One pass of the loop for a non-blank paragraph: it joins the open chunk
      when the chunk's length plus its own stays below the chunk size, and
      otherwise the open chunk (if any) is emitted and the paragraph opens the
      next one. */
  method AddParagraph(chunks: seq<Chunk>, current: string, para: string, source: string, chunkSize: int,
                      ghost groups: seq<seq<string>>, ghost group: seq<string>)
    returns (chunks': seq<Chunk>, current': string, ghost groups': seq<seq<string>>, ghost group': seq<string>)
    requires Pending(chunks, current, groups, group, source, chunkSize)
    requires Clean(para)
    ensures Pending(chunks', current', groups', group', source, chunkSize)
    ensures Flatten(groups') + group' == Flatten(groups) + group + [para]
    ensures |current| + |para| < chunkSize ==> chunks' == chunks && current' == current + para + Separator
    ensures |current| + |para| >= chunkSize ==> current' == para + Separator
    ensures |current| + |para| >= chunkSize && current != "" ==>
              chunks' == chunks + [Chunk(PyStrip(current), Metadata(source, KnowledgeBase))]
  {
    if |current| + |para| < chunkSize {
      PendingAppend(chunks, current, groups, group, para, source, chunkSize);
      chunks', groups' := chunks, groups;
      current' := current + para + Separator;
      group' := group + [para];
    } else {
      chunks', groups' := Emit(chunks, current, source, chunkSize, groups, group);
      PendingRestart(chunks', groups', para, source, chunkSize);
      current' := para + Separator;
      group' := [para];
    }
  }

  /** One pass of the loop: the piece is stripped, skipped when blank, and
      otherwise added as a paragraph. */
  method AddPiece(chunks: seq<Chunk>, current: string, piece: string, source: string, chunkSize: int,
                  ghost groups: seq<seq<string>>, ghost group: seq<string>)
    returns (chunks': seq<Chunk>, current': string, ghost groups': seq<seq<string>>, ghost group': seq<string>)
    requires Pending(chunks, current, groups, group, source, chunkSize)
    requires !Contains(piece, Separator)
    ensures Pending(chunks', current', groups', group', source, chunkSize)
    ensures Flatten(groups') + group' == Flatten(groups) + group + (if PyStrip(piece) == [] then [] else [PyStrip(piece)])
    ensures PyStrip(piece) == "" ==> chunks' == chunks && current' == current
  {
    var para := PyStrip(piece);
    if para == "" {
      chunks', current', groups', group' := chunks, current, groups, group;
      assert Flatten(groups') + group' == Flatten(groups) + group + [];
    } else {
      TrimKeepsAbsence(piece, PySpace, Separator);
      chunks', current', groups', group' := AddParagraph(chunks, current, para, source, chunkSize, groups, group);
    }
  }

  /** The loop of `_chunk_document` over the pieces between blank lines; it
      returns the chunks emitted so far and the still open chunk. */
  method PackPieces(pieces: seq<string>, source: string, chunkSize: int)
    returns (chunks: seq<Chunk>, current: string, ghost groups: seq<seq<string>>, ghost group: seq<string>)
    requires NoSeparator(pieces)
    ensures Pending(chunks, current, groups, group, source, chunkSize)
    ensures Flatten(groups) + group == NonEmpty(StripAll(pieces))
  {
    chunks := [];
    current := "";
    groups, group := [], [];
    ghost var stripped := StripAll(pieces);
    var i := 0;
    while i < |pieces|
      invariant 0 <= i <= |pieces|
      invariant Pending(chunks, current, groups, group, source, chunkSize)
      invariant Flatten(groups) + group == NonEmpty(stripped[..i])
    {
      NonEmptyStep(stripped, i);
      chunks, current, groups, group := AddPiece(chunks, current, pieces[i], source, chunkSize, groups, group);
      i := i + 1;
    }
    WholePrefix(stripped);
  }

  /** `_chunk_document`: cuts `content` at blank lines and packs the stripped,
      non-blank paragraphs greedily into chunks tagged with `source`. */
  method ChunkDocument(content: string, source: string, chunkSize: int) returns (chunks: seq<Chunk>)
    ensures forall j :: 0 <= j < |chunks| ==> chunks[j].content != []
    ensures forall j :: 0 <= j < |chunks| ==> chunks[j].metadata == Metadata(source, KnowledgeBase)
    ensures ChunkParagraphs(chunks) == Paragraphs(content)
    ensures chunks == [] <==> Paragraphs(content) == []
    ensures forall j :: 0 <= j < |chunks| && |ParagraphsOf(chunks[j])| >= 2 ==> |chunks[j].content| < chunkSize
    ensures forall j, k :: 0 <= j < |chunks| && 0 <= k < |chunks| && k == j + 1 ==>
              |chunks[j].content| + |Separator| + |ParagraphsOf(chunks[k])[0]| >= chunkSize
  {
    var pieces := Split(content, Separator);
    var current;
    ghost var groups, group;
    chunks, current, groups, group := PackPieces(pieces, source, chunkSize);
    chunks, groups := Emit(chunks, current, source, chunkSize, groups, group);
    PackedChunks(chunks, groups, source, chunkSize);
  }
}
