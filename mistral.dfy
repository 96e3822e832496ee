/** The prompt text built from retrieved knowledge chunks
    (backend/controllers/mistral_controller.py): `format_chunk_content`, which
    renders one chunk as text, and the join of the rendered chunks into the
    context block of the system prompt. The API call itself is not modelled. */
module Mistral {
  import opened Wrappers
  import opened Text

  /** A knowledge chunk: a JSON object whose keys may each be absent. Values
      are held as the text an f-string would print for them. */
  datatype Chunk = Chunk(
    content: Option<string>,
    nom: Option<string>,
    kind: Option<string>,
    adresse: Option<string>,
    telephone: Option<string>,
    fax: Option<string>,
    email: Option<string>,
    codeAgence: Option<string>,
    latitude: Option<string>,
    longitude: Option<string>)

  /** The labels of the summary parts, in the order the parts are appended. */
  const Labels: seq<string> :=
    ["Nom: ", "Type: ", "Adresse: ", "Téléphone: ", "Fax: ", "Email: ", "Code Agence: ", "Coordinates: "]

  const EmailSlot := 5
  const CoordinatesSlot := 7

  /** The value shown after each label, or `None` when that part is skipped:
      an email only when it is not blank, coordinates only when both halves
      are present. */
  function Slots(c: Chunk): (r: seq<Option<string>>)
    ensures |r| == |Labels|
  {
    [c.nom, c.kind, c.adresse, c.telephone, c.fax,
     if c.email.Some? && !IsBlank(c.email.value) then c.email else None,
     c.codeAgence,
     if c.latitude.Some? && c.longitude.Some? then Some(c.latitude.value + ", " + c.longitude.value) else None]
  }

  /** The part contributed by slot `k` alone. */
  function PartAt(slots: seq<Option<string>>, k: nat): seq<string>
    requires |slots| == |Labels| && k < |slots|
  {
    if slots[k].Some? then [Labels[k] + slots[k].value] else []
  }

  /** The labelled parts of the first `k` slots, in slot order. */
  function PartsUpTo(slots: seq<Option<string>>, k: nat): seq<string>
    requires |slots| == |Labels| && k <= |slots|
  {
    if k == 0 then [] else PartsUpTo(slots, k - 1) + PartAt(slots, k - 1)
  }

  /** The summary parts of a chunk, label by label. */
  function SummaryParts(c: Chunk): seq<string>
  {
    PartsUpTo(Slots(c), |Labels|)
  }

  /** `"content" in chunk and chunk["content"].strip()`: the chunk carries a
      content that is not blank. */
  predicate HasContent(c: Chunk)
  {
    c.content.Some? && !IsBlank(c.content.value)
  }

  /** What `format_chunk_content` returns. */
  function FormatChunk(c: Chunk): string
  {
    if HasContent(c) then c.content.value else Join(", ", SummaryParts(c))
  }

  /** `format_chunk_content`: the content verbatim when it is not blank,
      otherwise the parts of the known fields appended one by one, in a fixed
      order, and joined with ", ". */
  method FormatChunkContent(c: Chunk) returns (s: string)
    ensures HasContent(c) ==> s == c.content.value
    ensures !HasContent(c) ==> s == Join(", ", SummaryParts(c))
  {
    if HasContent(c) {
      return c.content.value;
    }
    // each known field contributes its labelled part when present
    var parts: seq<string> := [];
    parts := parts + (if c.nom.Some? then ["Nom: " + c.nom.value] else []);
    parts := parts + (if c.kind.Some? then ["Type: " + c.kind.value] else []);
    parts := parts + (if c.adresse.Some? then ["Adresse: " + c.adresse.value] else []);
    parts := parts + (if c.telephone.Some? then ["Téléphone: " + c.telephone.value] else []);
    parts := parts + (if c.fax.Some? then ["Fax: " + c.fax.value] else []);
    parts := parts + (if c.email.Some? && !IsBlank(c.email.value) then ["Email: " + c.email.value] else []);
    parts := parts + (if c.codeAgence.Some? then ["Code Agence: " + c.codeAgence.value] else []);
    parts := parts
      + (if c.latitude.Some? && c.longitude.Some? then ["Coordinates: " + c.latitude.value + ", " + c.longitude.value] else []);
    SlotParts(c);
    PartsUpToUnrolled(Slots(c));
    assert parts == SummaryParts(c);
    s := Join(", ", parts);
  }

  /** The parts of the eight slots are their optional parts one after the other. */
  lemma PartsUpToUnrolled(s: seq<Option<string>>)
    requires |s| == |Labels|
    ensures PartsUpTo(s, 8)
         == [] + PartAt(s, 0) + PartAt(s, 1) + PartAt(s, 2) + PartAt(s, 3)
          + PartAt(s, 4) + PartAt(s, 5) + PartAt(s, 6) + PartAt(s, 7)
  {
    assert PartsUpTo(s, 1) == [] + PartAt(s, 0);
    assert PartsUpTo(s, 3) == [] + PartAt(s, 0) + PartAt(s, 1) + PartAt(s, 2);
    assert PartsUpTo(s, 5) == [] + PartAt(s, 0) + PartAt(s, 1) + PartAt(s, 2) + PartAt(s, 3) + PartAt(s, 4);
    assert PartsUpTo(s, 7)
        == [] + PartAt(s, 0) + PartAt(s, 1) + PartAt(s, 2) + PartAt(s, 3) + PartAt(s, 4) + PartAt(s, 5) + PartAt(s, 6);
  }

  /** The part of each slot, spelled out field by field. */
  lemma SlotParts(c: Chunk)
    ensures PartAt(Slots(c), 0) == if c.nom.Some? then ["Nom: " + c.nom.value] else []
    ensures PartAt(Slots(c), 1) == if c.kind.Some? then ["Type: " + c.kind.value] else []
    ensures PartAt(Slots(c), 2) == if c.adresse.Some? then ["Adresse: " + c.adresse.value] else []
    ensures PartAt(Slots(c), 3) == if c.telephone.Some? then ["Téléphone: " + c.telephone.value] else []
    ensures PartAt(Slots(c), 4) == if c.fax.Some? then ["Fax: " + c.fax.value] else []
    ensures PartAt(Slots(c), 5) == if c.email.Some? && !IsBlank(c.email.value) then ["Email: " + c.email.value] else []
    ensures PartAt(Slots(c), 6) == if c.codeAgence.Some? then ["Code Agence: " + c.codeAgence.value] else []
    ensures PartAt(Slots(c), 7)
         == if c.latitude.Some? && c.longitude.Some? then ["Coordinates: " + c.latitude.value + ", " + c.longitude.value] else []
  {
    if c.latitude.Some? && c.longitude.Some? {
      assert "Coordinates: " + c.latitude.value + ", " + c.longitude.value == Labels[7] + Slots(c)[7].value;
    }
  }

  // ------------------------------------------------- which label a part has

  /** The index of the first label that begins `p`, or `|Labels|` if none does. */
  function LabelIndexFrom(p: string, k: nat): (r: nat)
    requires k <= |Labels|
    ensures k <= r <= |Labels|
    ensures r < |Labels| ==> Labels[r] <= p
    decreases |Labels| - k
  {
    if k == |Labels| then |Labels| else if Labels[k] <= p then k else LabelIndexFrom(p, k + 1)
  }

  function LabelIndex(p: string): nat
  {
    LabelIndexFrom(p, 0)
  }

  /** Every label has at least three characters, and no two labels share
      their first three: no label begins another part's label. */
  lemma LabelsDistinctPrefixes()
    ensures forall k :: 0 <= k < |Labels| ==> |Labels[k]| >= 3
    ensures forall k, m :: 0 <= k < m < |Labels| ==> Labels[k][..3] != Labels[m][..3]
  {
    assert Labels[0][..3] == "Nom" && Labels[1][..3] == "Typ" && Labels[2][..3] == "Adr";
    assert Labels[3][..3] == "Tél" && Labels[4][..3] == "Fax" && Labels[5][..3] == "Ema";
    assert Labels[6][..3] == "Cod" && Labels[7][..3] == "Coo";
  }

  /** A labelled part is recognised by its own label, whatever its value. */
  lemma {:induction false} LabelOfPart(k: nat, v: string)
    requires k < |Labels|
    ensures LabelIndex(Labels[k] + v) == k
  {
    LabelsDistinctPrefixes();
    var p := Labels[k] + v;
    forall m | 0 <= m < k
      ensures !(Labels[m] <= p)
    {
      assert p[..3] == Labels[k][..3];
      assert Labels[m][..3] != p[..3];
    }
    LabelIndexFromSkips(p, 0, k);
  }

  lemma {:induction false} LabelIndexFromSkips(p: string, j: nat, k: nat)
    requires j <= k < |Labels| && Labels[k] <= p
    requires forall m :: j <= m < k ==> !(Labels[m] <= p)
    ensures LabelIndexFrom(p, j) == k
    decreases k - j
  {
    if j < k {
      LabelIndexFromSkips(p, j + 1, k);
    }
  }

  /** The parts of the first `k` slots are exactly the labelled values of the
      present slots among them, in slot order. */
  lemma {:induction false} PartsUpToLabels(slots: seq<Option<string>>, k: nat)
    requires |slots| == |Labels| && k <= |slots|
    ensures forall p :: p in PartsUpTo(slots, k) ==>
              (LabelIndex(p) < k && slots[LabelIndex(p)].Some? && p == Labels[LabelIndex(p)] + slots[LabelIndex(p)].value)
    ensures forall i, j :: 0 <= i < j < |PartsUpTo(slots, k)| ==>
              LabelIndex(PartsUpTo(slots, k)[i]) < LabelIndex(PartsUpTo(slots, k)[j])
  {
    PartsUpToMembers(slots, k);
    PartsUpToOrdered(slots, k);
  }

  lemma {:induction false} PartsUpToMembers(slots: seq<Option<string>>, k: nat)
    requires |slots| == |Labels| && k <= |slots|
    ensures forall p :: p in PartsUpTo(slots, k) ==>
              (LabelIndex(p) < k && slots[LabelIndex(p)].Some? && p == Labels[LabelIndex(p)] + slots[LabelIndex(p)].value)
    decreases k
  {
    if k > 0 {
      PartsUpToMembers(slots, k - 1);
      if slots[k - 1].Some? {
        LabelOfPart(k - 1, slots[k - 1].value);
      }
    }
  }

  /** The indices of the present slots among the first `k`, in slot order. */
  function PresentUpTo(slots: seq<Option<string>>, k: nat): seq<nat>
    requires |slots| == |Labels| && k <= |slots|
  {
    if k == 0 then [] else PresentUpTo(slots, k - 1) + (if slots[k - 1].Some? then [k - 1] else [])
  }

  /** Part `i` is the labelled value of the `i`-th present slot, and the
      present slots are listed in increasing order. */
  lemma {:induction false} PartsFromPresent(slots: seq<Option<string>>, k: nat)
    requires |slots| == |Labels| && k <= |slots|
    ensures |PartsUpTo(slots, k)| == |PresentUpTo(slots, k)|
    ensures forall i :: 0 <= i < |PresentUpTo(slots, k)| ==>
              && PresentUpTo(slots, k)[i] < k
              && slots[PresentUpTo(slots, k)[i]].Some?
              && PartsUpTo(slots, k)[i] == Labels[PresentUpTo(slots, k)[i]] + slots[PresentUpTo(slots, k)[i]].value
    ensures forall i, j :: 0 <= i < j < |PresentUpTo(slots, k)| ==> PresentUpTo(slots, k)[i] < PresentUpTo(slots, k)[j]
    decreases k
  {
    if k > 0 {
      PartsFromPresent(slots, k - 1);
    }
  }

  lemma PartsUpToOrdered(slots: seq<Option<string>>, k: nat)
    requires |slots| == |Labels| && k <= |slots|
    ensures forall i, j :: 0 <= i < j < |PartsUpTo(slots, k)| ==>
              LabelIndex(PartsUpTo(slots, k)[i]) < LabelIndex(PartsUpTo(slots, k)[j])
  {
    var parts, present := PartsUpTo(slots, k), PresentUpTo(slots, k);
    PartsFromPresent(slots, k);
    forall i, j | 0 <= i < j < |parts|
      ensures LabelIndex(parts[i]) < LabelIndex(parts[j])
    {
      LabelOfPart(present[i], slots[present[i]].value);
      LabelOfPart(present[j], slots[present[j]].value);
    }
  }

  /** A present slot among the first `k` contributes its labelled value. */
  lemma {:induction false} PresentSlotShown(slots: seq<Option<string>>, k: nat, m: nat)
    requires |slots| == |Labels| && m < k <= |slots| && slots[m].Some?
    ensures Labels[m] + slots[m].value in PartsUpTo(slots, k)
    decreases k
  {
    if m < k - 1 {
      PresentSlotShown(slots, k - 1, m);
    }
  }

  /** The summary parts appear in the fixed label order: name, type, address,
      telephone, fax, email, agency code, coordinates. */
  lemma PartsInLabelOrder(c: Chunk)
    ensures forall i, j :: 0 <= i < j < |SummaryParts(c)| ==>
              LabelIndex(SummaryParts(c)[i]) < LabelIndex(SummaryParts(c)[j])
  {
    PartsUpToLabels(Slots(c), |Labels|);
  }

  /** A part with label `k` is in the summary exactly when slot `k` is present,
      and it then carries that slot's value. */
  lemma LabelShownIff(c: Chunk, k: nat)
    requires k < |Labels|
    ensures (exists p :: p in SummaryParts(c) && LabelIndex(p) == k) <==> Slots(c)[k].Some?
    ensures Slots(c)[k].Some? ==> Labels[k] + Slots(c)[k].value in SummaryParts(c)
  {
    PartsUpToLabels(Slots(c), |Labels|);
    if Slots(c)[k].Some? {
      PresentSlotShown(Slots(c), |Labels|, k);
      LabelOfPart(k, Slots(c)[k].value);
    }
  }

  /** The email part is shown exactly when the email is present and not blank. */
  lemma EmailShownIff(c: Chunk)
    ensures (exists p :: p in SummaryParts(c) && LabelIndex(p) == EmailSlot)
        <==> c.email.Some? && !IsBlank(c.email.value)
  {
    LabelShownIff(c, EmailSlot);
  }

  /** The coordinates part is shown exactly when both latitude and longitude
      are present, and it is then "Coordinates: <latitude>, <longitude>". */
  lemma CoordinatesShownIff(c: Chunk)
    ensures (exists p :: p in SummaryParts(c) && LabelIndex(p) == CoordinatesSlot)
        <==> c.latitude.Some? && c.longitude.Some?
    ensures c.latitude.Some? && c.longitude.Some? ==>
              "Coordinates: " + c.latitude.value + ", " + c.longitude.value in SummaryParts(c)
  {
    LabelShownIff(c, CoordinatesSlot);
    if c.latitude.Some? && c.longitude.Some? {
      assert Labels[CoordinatesSlot] + Slots(c)[CoordinatesSlot].value
          == "Coordinates: " + c.latitude.value + ", " + c.longitude.value;
    }
  }

  /** The rendering is empty exactly when there is no usable content and none
      of the known fields is shown. */
  lemma {:induction false} EmptyRenderingIff(c: Chunk)
    ensures FormatChunk(c) == "" <==> !HasContent(c) && forall k :: 0 <= k < |Labels| ==> Slots(c)[k].None?
  {
    var parts := SummaryParts(c);
    PartsUpToLabels(Slots(c), |Labels|);
    if !HasContent(c) && parts != [] {
      var k := LabelIndex(parts[0]);
      assert parts[0] in parts;
      assert |Labels[k]| > 0;
      assert parts[0] == Labels[k] + Slots(c)[k].value;
      if |parts| > 1 {
        assert Join(", ", parts) == parts[0] + ", " + Join(", ", parts[1..]);
      }
    }
    if !HasContent(c) && exists k :: 0 <= k < |Labels| && Slots(c)[k].Some? {
      var k :| 0 <= k < |Labels| && Slots(c)[k].Some?;
      PresentSlotShown(Slots(c), |Labels|, k);
    }
  }

  // --------------------------------------------------------- context block

  /** One retrieved chunk as a bullet of the context block. */
  function Bullet(c: Chunk): string
  {
    "- " + FormatChunk(c)
  }

  /** `context_text`: the bullets of the retrieved chunks, in retrieval order,
      separated by blank lines. */
  function ContextText(chunks: seq<Chunk>): string
  {
    Join("\n\n", seq(|chunks|, i requires 0 <= i < |chunks| => Bullet(chunks[i])))
  }

  /** One more retrieved chunk adds a blank line and its bullet at the end. */
  lemma ContextTextSnoc(chunks: seq<Chunk>, c: Chunk)
    ensures ContextText(chunks + [c])
         == if chunks == [] then Bullet(c) else ContextText(chunks) + "\n\n" + Bullet(c)
  {
    var bullets := seq(|chunks|, i requires 0 <= i < |chunks| => Bullet(chunks[i]));
    assert seq(|chunks + [c]|, i requires 0 <= i < |chunks + [c]| => Bullet((chunks + [c])[i])) == bullets + [Bullet(c)];
    JoinSnoc("\n\n", bullets, Bullet(c));
  }

  /** The context block is empty only when nothing was retrieved, and it
      otherwise opens with the first chunk's bullet. */
  lemma ContextTextStart(chunks: seq<Chunk>)
    ensures chunks == [] ==> ContextText(chunks) == ""
    ensures chunks != [] ==> Bullet(chunks[0]) <= ContextText(chunks)
  {
    var bullets := seq(|chunks|, i requires 0 <= i < |chunks| => Bullet(chunks[i]));
    if chunks != [] {
      assert bullets[0] == Bullet(chunks[0]);
    }
    if |chunks| > 1 {
      assert Join("\n\n", bullets) == bullets[0] + "\n\n" + Join("\n\n", bullets[1..]);
    }
  }
}
