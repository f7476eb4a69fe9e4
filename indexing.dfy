/** Shaping catalog entries for the vector store: test6.py's add_data_to_chroma
    (document id, embedded text, flattened metadata) and test7.py's
    create_embeddings (one text per record). The embedding model is a parameter. */
module Indexing {
  import opened Text
  import opened Catalog

  const TitleKey := "제목"
  const DescriptionKey := "설명"
  const BenefitsKey := "혜택"
  const UnknownId := "Unknown"
  const ListSeparator := ", "

  /** One metadata value after flattening: a list becomes its items joined by ", ". */
  function Flatten(v: FieldValue): (w: FieldValue)
    ensures w.Text?
    ensures v.Text? ==> w == v
    ensures v.TextList? ==> w.text == Join(v.items, ListSeparator)
    ensures v.TextList? ==> forall k :: 0 <= k < |v.items| ==> Contains(w.text, v.items[k])
  {
    match v
    case Text(_) => v
    case TextList(items) =>
      forall k | 0 <= k < |items| ensures Contains(Join(items, ListSeparator), items[k]) {
        JoinContains(items, ListSeparator, k);
      }
      Text(Join(items, ListSeparator))
  }

  /** Metadata the vector store accepts: no list values. */
  predicate IsFlat(m: RawProgram)
  {
    forall k :: k in m ==> m[k].Text?
  }

  /** The metadata add_data_to_chroma stores for an entry. */
  function Flattened(m: RawProgram): map<string, FieldValue>
  {
    map k | k in m :: Flatten(m[k])
  }

  /** The `processed_metadata` loop over `program.items()`, filling a fresh dict. */
  method FlattenMetadata(program: RawProgram) returns (processed: RawProgram)
    ensures processed == Flattened(program)
  {
    processed := map[];
    var pending := program.Keys;
    while pending != {}
      invariant pending <= program.Keys
      invariant processed.Keys == program.Keys - pending
      invariant forall k :: k in processed ==> processed[k] == Flatten(program[k])
      decreases pending
    {
      var key :| key in pending;
      var value := program[key];
      if value.TextList? {
        processed := processed[key := Text(Join(value.items, ListSeparator))];
      } else {
        processed := processed[key := value];
      }
      pending := pending - {key};
    }
  }

  /** Flattening keeps the key set, leaves text values alone, turns every list into
      its items joined by ", ", keeps every list item
      visible in the joined text, leaves no list behind, and changes nothing the
      second time. */
  lemma FlattenedSpec(m: RawProgram)
    ensures Flattened(m).Keys == m.Keys
    ensures IsFlat(Flattened(m))
    ensures forall k :: k in m && m[k].Text? ==> Flattened(m)[k] == m[k]
    ensures forall k :: k in m && m[k].TextList? ==> Flattened(m)[k] == Text(Join(m[k].items, ListSeparator))
    ensures forall k, i :: k in m && m[k].TextList? && 0 <= i < |m[k].items| ==>
              Contains(Flattened(m)[k].text, m[k].items[i])
    ensures Flattened(Flattened(m)) == Flattened(m)
  {
  }

  /** Flat metadata is what flattening leaves unchanged. */
  lemma FlattenedFixesFlat(m: RawProgram)
    ensures IsFlat(m) <==> Flattened(m) == m
  {
    if Flattened(m) == m {
      forall k | k in m ensures m[k].Text? {
        assert Flattened(m)[k] == m[k];
      }
    }
  }

  /** `program.get("제목", "Unknown")`. */
  function DocId(program: RawProgram): (id: FieldValue)
    ensures TitleKey in program ==> id == program[TitleKey]
    ensures TitleKey !in program ==> id == Text(UnknownId)
  {
    if TitleKey in program then program[TitleKey] else Text(UnknownId)
  }

  /** How an f-string shows a value: text as is, a list as Python's repr of a list
      of strings. */
  function Display(v: FieldValue): string
  {
    match v
    case Text(s) => s
    case TextList(items) =>
      "[" + Join(seq(|items|, i requires 0 <= i < |items| => "'" + items[i] + "'"), ", ") + "]"
  }

  /** `program.get(key, '')` as the f-string shows it. */
  function FieldShown(program: RawProgram, key: string): string
  {
    if key in program then Display(program[key]) else ""
  }

  /** The text add_data_to_chroma embeds: title, description and benefits
      separated by single spaces, an absent field showing as empty. */
  function IndexContent(program: RawProgram): (content: string)
    ensures content == FieldShown(program, TitleKey) + " " + FieldShown(program, DescriptionKey)
                       + " " + FieldShown(program, BenefitsKey)
    ensures forall k :: 0 <= k < 3 ==> Contains(content, ShownFields(program)[k])
    ensures |content| == TotalLength(ShownFields(program)) + 2
  {
    var fs := ShownFields(program);
    SpacedParts(fs);
    SpacedThree(fs[0], fs[1], fs[2]);
    assert fs == [fs[0], fs[1], fs[2]];
    Join(ShownFields(program), " ")
  }

  /** Every part of a space-separated join occurs in it, and its length is the
      parts' lengths plus one per gap. */
  lemma SpacedParts(fs: seq<string>)
    requires fs != []
    ensures forall k :: 0 <= k < |fs| ==> Contains(Join(fs, " "), fs[k])
    ensures |Join(fs, " ")| == TotalLength(fs) + |fs| - 1
  {
    forall k | 0 <= k < |fs| ensures Contains(Join(fs, " "), fs[k]) {
      JoinContains(fs, " ", k);
    }
    JoinLength(fs, " ");
  }

  lemma SpacedThree(a: string, b: string, c: string)
    ensures Join([a, b, c], " ") == a + " " + b + " " + c
    ensures TotalLength([a, b, c]) == |a| + |b| + |c|
  {
    var fs := [a, b, c];
    assert fs[1..] == [b, c] && fs[1..][1..] == [c] && fs[1..][1..][1..] == [];
    assert Join(fs[1..], " ") == b + " " + c;
    assert TotalLength(fs[1..][1..]) == |c|;
    assert TotalLength(fs[1..]) == |b| + |c|;
  }

  lemma SpacedFour(a: string, b: string, c: string, d: string)
    ensures Join([a, b, c, d], " ") == a + " " + b + " " + c + " " + d
    ensures TotalLength([a, b, c, d]) == |a| + |b| + |c| + |d|
  {
    var fs := [a, b, c, d];
    assert fs[1..] == [b, c, d];
    SpacedThree(b, c, d);
    assert TotalLength(fs) == |a| + TotalLength([b, c, d]);
  }

  /** The three fields the indexed text shows, in order. */
  function ShownFields(program: RawProgram): seq<string>
  {
    [FieldShown(program, TitleKey), FieldShown(program, DescriptionKey), FieldShown(program, BenefitsKey)]
  }

  /** One `collection.add` call: the id, the vector of the content, the metadata. */
  datatype Entry<V> = Entry(id: FieldValue, vector: V, metadata: RawProgram)

  /** The entry add_data_to_chroma adds for one program. */
  function EntryOf<V>(program: RawProgram, embed: string -> V): Entry<V>
  {
    Entry(DocId(program), embed(IndexContent(program)), Flattened(program))
  }

  /** add_data_to_chroma's loop over program_data: one entry per program, in
      catalog order, each with flat metadata. */
  method BuildIndex<V>(programs: seq<RawProgram>, embed: string -> V) returns (entries: seq<Entry<V>>)
    ensures |entries| == |programs|
    ensures forall i :: 0 <= i < |programs| ==> entries[i] == EntryOf(programs[i], embed)
    ensures forall i :: 0 <= i < |entries| ==> IsFlat(entries[i].metadata)
  {
    entries := [];
    for i := 0 to |programs|
      invariant |entries| == i
      invariant forall j :: 0 <= j < i ==> entries[j] == EntryOf(programs[j], embed)
      invariant forall j :: 0 <= j < i ==> IsFlat(entries[j].metadata)
    {
      var program := programs[i];
      var docId := DocId(program);
      var content := IndexContent(program);
      var metadata := FlattenMetadata(program);
      FlattenedSpec(program);
      entries := entries + [Entry(docId, embed(content), metadata)];
    }
  }

  /** The fields create_embeddings puts in a record's text, in order: title,
      description, audience, benefits. */
  function EmbeddingFields(r: Record): seq<string>
  {
    [r.title, r.description, r.target, r.benefits]
  }

  /** The text of one record: its embedding fields separated by single spaces. */
  function EmbeddingText(r: Record): (t: string)
    ensures t == r.title + " " + r.description + " " + r.target + " " + r.benefits
    ensures forall k :: 0 <= k < 4 ==> Contains(t, EmbeddingFields(r)[k])
    ensures |t| == |r.title| + |r.description| + |r.target| + |r.benefits| + 3
  {
    var fs := EmbeddingFields(r);
    SpacedParts(fs);
    SpacedFour(r.title, r.description, r.target, r.benefits);
    Join(EmbeddingFields(r), " ")
  }

  /** `texts` of create_embeddings: one text per record, in order. */
  function EmbeddingTexts(data: seq<Record>): (texts: seq<string>)
    ensures |texts| == |data|
    ensures forall i :: 0 <= i < |data| ==> texts[i] == EmbeddingText(data[i])
  {
    seq(|data|, i requires 0 <= i < |data| => EmbeddingText(data[i]))
  }

  /** create_embeddings: nothing for an empty catalog, otherwise the embedding model
      applied to the texts. */
  function CreateEmbeddings<V>(data: seq<Record>, embedDocuments: seq<string> -> seq<V>): (vs: seq<V>)
    ensures data == [] ==> vs == []
    ensures data != [] ==> vs == embedDocuments(EmbeddingTexts(data))
  {
    if data == [] then [] else embedDocuments(EmbeddingTexts(data))
  }
}
