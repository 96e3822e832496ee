/** The landing page's client-side question browser
    (frontend/src/components/HomePage.tsx): a constant table of branches and
    their sample questions, the branch list and the tag search. Rendering and
    the click-to-fill of the chat input are not modelled. */
module HomePage {
  import opened Wrappers
  import opened Text
  import opened Seqs

  datatype SampleQuestion = SampleQuestion(text: string, tags: seq<string>)

  datatype Branch = Branch(key: string, title: string, questions: seq<SampleQuestion>)

  /** `BRANCHES` */
  const Branches: seq<Branch> := [
    Branch("insurance", "Insurance", [
      SampleQuestion("What does my insurance cover?", ["coverage", "insurance"]),
      SampleQuestion("How to renew my policy?", ["renewal", "insurance"])
    ]),
    Branch("claims", "Claims", [
      SampleQuestion("How to file a claim?", ["claims", "process"]),
      SampleQuestion("Claim processing time?", ["claims", "duration"])
    ])
  ]

  /** `bs.flatMap((b) => b.questions)` */
  function Flatten(bs: seq<Branch>): seq<SampleQuestion>
    decreases |bs|
  {
    if bs == [] then [] else bs[0].questions + Flatten(bs[1..])
  }

  /** `allQuestions` */
  function AllQuestions(): seq<SampleQuestion>
  {
    Flatten(Branches)
  }

  /** One more branch at the end adds its questions at the end. */
  lemma {:induction false} FlattenSnoc(bs: seq<Branch>, b: Branch)
    ensures Flatten(bs + [b]) == Flatten(bs) + b.questions
    decreases |bs|
  {
    if bs != [] {
      assert (bs + [b])[1..] == bs[1..] + [b];
      FlattenSnoc(bs[1..], b);
    }
  }

  /** A question is listed exactly when some branch holds it. */
  lemma {:induction false} FlattenMembers(bs: seq<Branch>, q: SampleQuestion)
    ensures q in Flatten(bs) <==> exists i :: 0 <= i < |bs| && q in bs[i].questions
    decreases |bs|
  {
    if bs != [] {
      FlattenMembers(bs[1..], q);
      if exists i :: 0 <= i < |bs| && q in bs[i].questions {
        var i :| 0 <= i < |bs| && q in bs[i].questions;
        if i > 0 {
          assert bs[1..][i - 1] == bs[i];
        }
      }
      if exists i :: 0 <= i < |bs[1..]| && q in bs[1..][i].questions {
        var i :| 0 <= i < |bs[1..]| && q in bs[1..][i].questions;
        assert bs[i + 1] == bs[1..][i];
      }
    }
  }

  /** All questions are the questions of each branch, in branch order. */
  lemma AllQuestionsByBranch()
    ensures AllQuestions() == Branches[0].questions + Branches[1].questions
  {
    FlattenSnoc([Branches[0]], Branches[1]);
    assert [Branches[0]] + [Branches[1]] == Branches;
  }

  // ------------------------------------------------------------ tag search

  /** `q.tags.includes(tag)`: an exact, case-sensitive comparison. */
  function CarriesTag(tag: string): SampleQuestion -> bool
  {
    (q: SampleQuestion) => tag in q.tags
  }

  /** The effect on `searchTag`. */
  function FilteredFor(searchTag: string): seq<SampleQuestion>
  {
    if searchTag != "" then Filter(CarriesTag(Lower(searchTag)), AllQuestions()) else []
  }

  /** Nothing is listed for an empty tag; otherwise exactly the questions
      carrying the lower-cased tag are listed, in `allQuestions` order. */
  lemma FilteredForSelects(searchTag: string)
    ensures searchTag == "" ==> FilteredFor(searchTag) == []
    ensures SubseqOf(FilteredFor(searchTag), AllQuestions())
    ensures searchTag != "" ==>
              forall q :: q in AllQuestions() ==> (q in FilteredFor(searchTag) <==> Lower(searchTag) in q.tags)
  {
  }

  /** The value stored from the search box: trimmed, then lower-cased. */
  function SearchTagOf(raw: string): string
  {
    Lower(Trim(raw))
  }

  /** Lower-casing maps whitespace to itself and everything else to
      something that is not whitespace. */
  lemma LowerKeepsSpaces(s: string)
    ensures |Lower(s)| == |s|
    ensures forall i :: 0 <= i < |s| ==> (IsSpace(Lower(s)[i]) <==> IsSpace(s[i]))
  {
  }

  /** A stored search tag is already trimmed and lower-cased, so the effect's
      own lower-casing changes nothing. */
  lemma SearchTagNormalised(raw: string)
    ensures Trim(SearchTagOf(raw)) == SearchTagOf(raw)
    ensures Lower(SearchTagOf(raw)) == SearchTagOf(raw)
  {
    var t := Trim(raw);
    LowerKeepsSpaces(t);
    TrimOfTrimmed(Lower(t));
    LowerIdempotent(t);
  }

  /** Entering the stored tag again stores the same value. */
  lemma SearchTagStable(raw: string)
    ensures SearchTagOf(SearchTagOf(raw)) == SearchTagOf(raw)
  {
    SearchTagNormalised(raw);
  }

  // ------------------------------------------------------------ branch list

  /** `bs.find((b) => b.key === key)` */
  function FindBranch(bs: seq<Branch>, key: string): (r: Option<Branch>)
    ensures r.None? <==> forall i :: 0 <= i < |bs| ==> bs[i].key != key
    ensures r.Some? ==> exists i :: 0 <= i < |bs| && bs[i] == r.value && r.value.key == key
                                    && forall m :: 0 <= m < i ==> bs[m].key != key
    decreases |bs|
  {
    if bs == [] then None
    else if bs[0].key == key then Some(bs[0])
    else
      var r := FindBranch(bs[1..], key);
      if r.Some? then
        var i :| 0 <= i < |bs[1..]| && bs[1..][i] == r.value && r.value.key == key
                 && forall m :: 0 <= m < i ==> bs[1..][m].key != key;
        assert bs[i + 1] == r.value;
        r
      else r
  }

  /** The listed questions of a selected branch: those of the first branch
      with that key, or none. */
  function BranchList(key: string): seq<SampleQuestion>
  {
    var b := FindBranch(Branches, key);
    if b.Some? then b.value.questions else []
  }

  /** The branch keys of the table select their own questions; any other key
      selects nothing. */
  lemma BranchListByKey(key: string)
    ensures key == "insurance" ==> BranchList(key) == Branches[0].questions
    ensures key == "claims" ==> BranchList(key) == Branches[1].questions
    ensures key != "insurance" && key != "claims" ==> BranchList(key) == []
  {
    assert Branches[0].key == "insurance" && Branches[1].key == "claims";
    assert "insurance" != "claims";
  }

  // ----------------------------------------------------------- page state

  /** The page's React state: the selected branch, the stored search tag
      and the questions the tag effect last computed. */
  class Page {
    var selectedBranch: Option<string>
    var searchTag: string
    var filteredQuestions: seq<SampleQuestion>

    /** The tag effect has run for the current tag. */
    predicate Valid()
      reads this
    {
      filteredQuestions == FilteredFor(searchTag)
    }

    /** The first render: nothing selected, no tag, and the effect's empty result. */
    constructor ()
      ensures Valid()
      ensures selectedBranch == None && searchTag == "" && filteredQuestions == []
    {
      selectedBranch := None;
      searchTag := "";
      filteredQuestions := [];
    }

    /** The search box changes: its value is trimmed and lower-cased into
        `searchTag`, then the effect recomputes the matching questions. */
    method SearchInputChanged(raw: string)
      requires Valid()
      modifies this
      ensures Valid()
      ensures searchTag == SearchTagOf(raw)
      ensures filteredQuestions == FilteredFor(searchTag)
      ensures unchanged(this`selectedBranch)
    {
      var tag := SearchTagOf(raw);
      searchTag, filteredQuestions := tag, FilteredFor(tag);
    }

    /** The branch select changes (clearing it gives no branch). */
    method SelectBranch(value: Option<string>)
      requires Valid()
      modifies this
      ensures Valid()
      ensures selectedBranch == value
      ensures unchanged(this`searchTag, this`filteredQuestions)
    {
      selectedBranch := value;
    }

    /** The questions listed under the branch select: those of the selected
        branch (see `BranchListByKey`), and nothing without a non-empty
        selection. */
    function ListedBranchQuestions(): (r: seq<SampleQuestion>)
      reads this
      ensures selectedBranch.None? || selectedBranch.value == "" ==> r == []
      ensures selectedBranch.Some? && selectedBranch.value != "" ==> r == BranchList(selectedBranch.value)
    {
      if selectedBranch.Some? && selectedBranch.value != "" then BranchList(selectedBranch.value) else []
    }
  }
}
