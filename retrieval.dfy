/** The text side of retrieval (backend/controllers/retrieval.py): the text of a
    knowledge chunk that is handed to the embedding model, and the
    normalisation of free text. The embedding model and the vector index are
    not modelled. */
module Retrieval {
  import opened Wrappers
  import opened Text
  import opened Seqs

  /** The `sections` object of a chunk. A missing list key reads as an empty
      list, a missing `contact` as an empty dictionary; the contact entries are
      held in the dictionary's insertion order. */
  datatype Sections = Sections(
    apercu: Option<string>,
    couverture: Option<string>,
    plans: Option<string>,
    services: seq<string>,
    couvertureMedicale: seq<string>,
    fonctionnalitesSpeciales: seq<string>,
    contact: seq<(string, string)>,
    legal: seq<string>)

  /** A knowledge chunk as far as the embedding text reads it. */
  datatype EmbeddingChunk = EmbeddingChunk(nom: Option<string>, url: Option<string>, sections: Option<Sections>)

  /** `{}` read as a `sections` object. */
  const NoSections := Sections(None, None, None, [], [], [], [], [])

  /** `chunk.get("sections", {})` */
  function SectionsOf(c: EmbeddingChunk): Sections
  {
    if c.sections.Some? then c.sections.value else NoSections
  }

  /** The line of an optional single field. */
  function Labelled(prefix: string, v: Option<string>): seq<string>
  {
    if v.Some? then [prefix + v.value] else []
  }

  /** One line per list element, in list order. */
  function Prefixed(prefix: string, items: seq<string>): seq<string>
  {
    seq(|items|, i requires 0 <= i < |items| => prefix + items[i])
  }

  /** One line per contact entry: the key capitalised, a colon, the value. */
  function ContactLines(contact: seq<(string, string)>): seq<string>
  {
    seq(|contact|, i requires 0 <= i < |contact| => Capitalize(contact[i].0) + ": " + contact[i].1)
  }

  /** The lines of the embedding text, section by section. */
  function EmbeddingLines(c: EmbeddingChunk): seq<string>
  {
    var s := SectionsOf(c);
    Labelled("Nom: ", c.nom) + Labelled("URL: ", c.url)
      + Labelled("Aperçu: ", s.apercu) + Labelled("Couverture: ", s.couverture) + Labelled("Plans: ", s.plans)
      + Prefixed("Service: ", s.services)
      + Prefixed("Couverture médicale: ", s.couvertureMedicale)
      + Prefixed("Fonctionnalité spéciale: ", s.fonctionnalitesSpeciales)
      + ContactLines(s.contact)
      + Prefixed("Légal: ", s.legal)
  }

  /** `get_text_for_embedding`: the lines appended one by one to `parts`,
      joined with newlines. */
  method TextForEmbedding(c: EmbeddingChunk) returns (text: string)
    ensures text == Join("\n", EmbeddingLines(c))
  {
    var parts: seq<string> := [];
    parts := parts + (if c.nom.Some? then ["Nom: " + c.nom.value] else []);
    assert parts == Labelled("Nom: ", c.nom);
    parts := parts + (if c.url.Some? then ["URL: " + c.url.value] else []);
    var sections := SectionsOf(c);
    parts := parts + (if sections.apercu.Some? then ["Aperçu: " + sections.apercu.value] else []);
    parts := parts + (if sections.couverture.Some? then ["Couverture: " + sections.couverture.value] else []);
    parts := parts + (if sections.plans.Some? then ["Plans: " + sections.plans.value] else []);
    parts := AppendPrefixed(parts, "Service: ", sections.services);
    parts := AppendPrefixed(parts, "Couverture médicale: ", sections.couvertureMedicale);
    parts := AppendPrefixed(parts, "Fonctionnalité spéciale: ", sections.fonctionnalitesSpeciales);
    parts := AppendContact(parts, sections.contact);
    parts := AppendPrefixed(parts, "Légal: ", sections.legal);
    assert parts == EmbeddingLines(c);
    text := Join("\n", parts);
  }

  /** `for item in items: parts.append(f"{prefix}{item}")` */
  method AppendPrefixed(parts: seq<string>, prefix: string, items: seq<string>) returns (r: seq<string>)
    ensures r == parts + Prefixed(prefix, items)
  {
    r := parts;
    for i := 0 to |items|
      invariant r == parts + Prefixed(prefix, items[..i])
    {
      r := r + [prefix + items[i]];
      assert Prefixed(prefix, items[..i + 1]) == Prefixed(prefix, items[..i]) + [prefix + items[i]];
    }
    assert items[..|items|] == items;
  }

  /** `for key, value in contact.items(): parts.append(f"{key.capitalize()}: {value}")` */
  method AppendContact(parts: seq<string>, contact: seq<(string, string)>) returns (r: seq<string>)
    ensures r == parts + ContactLines(contact)
  {
    r := parts;
    for i := 0 to |contact|
      invariant r == parts + ContactLines(contact[..i])
    {
      var (key, value) := contact[i];
      r := r + [Capitalize(key) + ": " + value];
      assert ContactLines(contact[..i + 1]) == ContactLines(contact[..i]) + [Capitalize(key) + ": " + value];
    }
    assert contact[..|contact|] == contact;
  }

  // ------------------------------------------------------- what the lines are

  /** How many of the five single fields (name, URL, overview, coverage, plans)
      are present. */
  function SingleFieldCount(c: EmbeddingChunk): nat
  {
    var s := SectionsOf(c);
    |Labelled("Nom: ", c.nom)| + |Labelled("URL: ", c.url)|
      + |Labelled("Aperçu: ", s.apercu)| + |Labelled("Couverture: ", s.couverture)| + |Labelled("Plans: ", s.plans)|
  }

  /** Every list element gives exactly one line, and the lists follow the single
      fields in the fixed order services, medical coverage, special features,
      contact, legal notices, each in its own order. */
  lemma EmbeddingLinesLayout(c: EmbeddingChunk)
    ensures var s := SectionsOf(c);
      && |EmbeddingLines(c)| == SingleFieldCount(c) + |s.services| + |s.couvertureMedicale|
                                + |s.fonctionnalitesSpeciales| + |s.contact| + |s.legal|
      && (forall i :: 0 <= i < |s.services| ==>
            EmbeddingLines(c)[SingleFieldCount(c) + i] == "Service: " + s.services[i])
      && (forall i :: 0 <= i < |s.couvertureMedicale| ==>
            EmbeddingLines(c)[SingleFieldCount(c) + |s.services| + i] == "Couverture médicale: " + s.couvertureMedicale[i])
      && (forall i :: 0 <= i < |s.fonctionnalitesSpeciales| ==>
            EmbeddingLines(c)[SingleFieldCount(c) + |s.services| + |s.couvertureMedicale| + i]
            == "Fonctionnalité spéciale: " + s.fonctionnalitesSpeciales[i])
      && (forall i :: 0 <= i < |s.contact| ==>
            EmbeddingLines(c)[SingleFieldCount(c) + |s.services| + |s.couvertureMedicale| + |s.fonctionnalitesSpeciales| + i]
            == Capitalize(s.contact[i].0) + ": " + s.contact[i].1)
      && (forall i :: 0 <= i < |s.legal| ==>
            EmbeddingLines(c)[|EmbeddingLines(c)| - |s.legal| + i] == "Légal: " + s.legal[i])
  {
  }

  /** A chunk without `sections` gives at most its name and URL lines, exactly
      as a chunk with an empty `sections` object does. */
  lemma MissingSectionsAreEmpty(c: EmbeddingChunk)
    requires c.sections.None?
    ensures EmbeddingLines(c) == Labelled("Nom: ", c.nom) + Labelled("URL: ", c.url)
    ensures EmbeddingLines(c) == EmbeddingLines(c.(sections := Some(NoSections)))
  {
  }

  /** No line is empty. */
  lemma LinesNotEmpty(c: EmbeddingChunk)
    ensures forall i :: 0 <= i < |EmbeddingLines(c)| ==> EmbeddingLines(c)[i] != []
  {
    EmbeddingLinesLayout(c);
  }

  /** The embedding text is empty exactly when the chunk yields no line: no
      name, no URL, and nothing in its sections. */
  lemma EmptyTextIff(c: EmbeddingChunk)
    ensures Join("\n", EmbeddingLines(c)) == "" <==> EmbeddingLines(c) == []
    ensures EmbeddingLines(c) == [] <==> c.nom.None? && c.url.None? && (c.sections.None? || c.sections.value == NoSections)
  {
    LinesNotEmpty(c);
    JoinEmptyIff("\n", EmbeddingLines(c));
    EmbeddingLinesLayout(c);
  }

  // ----------------------------------------------------------- normalize_text

  /** A character of the regular-expression class `\w`, within Latin-1: the
      letters (ª, µ and º among them), the digits, the superscript digits,
      the vulgar fractions and the underscore. */
  predicate IsWordChar(c: char)
  {
    || 'a' <= c <= 'z' || 'A' <= c <= 'Z' || '0' <= c <= '9' || c == '_'
    || c == '\U{AA}' || c == '\U{B5}' || c == '\U{BA}'
    || c == '\U{B2}' || c == '\U{B3}' || c == '\U{B9}' || '\U{BC}' <= c <= '\U{BE}'
    || ('\U{C0}' <= c <= '\U{FF}' && c != '\U{D7}' && c != '\U{F7}')
  }

  /** Kept by `re.sub(r'[^\w\s]', '', text)`. */
  predicate IsWordOrSpace(c: char)
  {
    IsWordChar(c) || IsSpace(c)
  }

  /** `normalize_text`: lower-cased, accents removed, and every character that
      is neither a word character nor whitespace dropped. */
  function NormalizeText(text: string): (r: string)
    ensures forall i :: 0 <= i < |r| ==> IsWordOrSpace(r[i]) && FoldChar(r[i]) == r[i]
  {
    var folded := Fold(text);
    var r := Filter(IsWordOrSpace, folded);
    forall i | 0 <= i < |r|
      ensures FoldChar(r[i]) == r[i]
    {
      assert r[i] in r;
      var j :| 0 <= j < |folded| && folded[j] == r[i];
      FoldCharIdempotent(text[j]);
    }
    r
  }

  /** Every word or space character of the folded text survives, and nothing
      else does: normalisation keeps the folded characters of the class and
      drops the rest. */
  lemma NormalizeTextKeeps(text: string, ch: char)
    ensures ch in NormalizeText(text) <==> IsWordOrSpace(ch) && exists i :: 0 <= i < |text| && FoldChar(text[i]) == ch
  {
    var folded := Fold(text);
    if IsWordOrSpace(ch) && exists i :: 0 <= i < |text| && FoldChar(text[i]) == ch {
      var i :| 0 <= i < |text| && FoldChar(text[i]) == ch;
      assert folded[i] == ch;
    }
  }

  /** Normalising normalised text changes nothing. */
  lemma NormalizeTextIdempotent(text: string)
    ensures NormalizeText(NormalizeText(text)) == NormalizeText(text)
  {
    var r := NormalizeText(text);
    assert Fold(r) == r;
    FilterKeepsAll(IsWordOrSpace, r);
  }
}
