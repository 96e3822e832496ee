/** The question catalog of the backend (backend/controllers/questions_controller.py):
    selection by branch and by a single tag over the loaded list of questions.
    Loading `data/questions.json` is not modelled: the loaded list is a parameter. */
module Questions {
  import opened Text
  import opened Seqs

  /** A catalog entry, as in backend/models/question.py. */
  datatype Question = Question(id: int, branch: string, question: string, tags: seq<string>)

  /** `q["branch"].lower() == branch_name.lower()` */
  predicate InBranch(q: Question, branchName: string)
  {
    Lower(q.branch) == Lower(branchName)
  }

  /** `tag.lower() in [t.lower() for t in q["tags"]]` */
  predicate HasTag(q: Question, tag: string)
  {
    Lower(tag) in LowerAll(q.tags)
  }

  function BranchFilter(branchName: string): Question -> bool
  {
    q => InBranch(q, branchName)
  }

  function TagFilter(tag: string): Question -> bool
  {
    q => HasTag(q, tag)
  }

  /** `get_questions_by_branch`: the questions of the branch, compared without
      regard to case, in catalog order, each as often as the catalog lists
      it; no match gives an empty list. */
  function QuestionsByBranch(questions: seq<Question>, branchName: string): (r: seq<Question>)
    ensures SubseqOf(r, questions)
    ensures forall q :: q in r ==> q in questions && InBranch(q, branchName)
    ensures forall q :: q in questions && InBranch(q, branchName) ==> q in r
    ensures r == [] <==> forall q :: q in questions ==> !InBranch(q, branchName)
    ensures forall q :: multiset(r)[q] == if InBranch(q, branchName) then multiset(questions)[q] else 0
  {
    var r := Filter(BranchFilter(branchName), questions);
    assert r != [] ==> r[0] in r;
    forall q ensures multiset(r)[q] == if InBranch(q, branchName) then multiset(questions)[q] else 0 {
      FilterCounts(BranchFilter(branchName), questions, q);
    }
    r
  }

  /** `search_questions_by_tag`: the questions carrying the tag, compared
      without regard to case, in catalog order, each as often as the catalog
      lists it; no match gives an empty list. */
  function QuestionsByTag(questions: seq<Question>, tag: string): (r: seq<Question>)
    ensures SubseqOf(r, questions)
    ensures forall q :: q in r ==> q in questions && HasTag(q, tag)
    ensures forall q :: q in questions && HasTag(q, tag) ==> q in r
    ensures r == [] <==> forall q :: q in questions ==> !HasTag(q, tag)
    ensures forall q :: multiset(r)[q] == if HasTag(q, tag) then multiset(questions)[q] else 0
  {
    var r := Filter(TagFilter(tag), questions);
    assert r != [] ==> r[0] in r;
    forall q ensures multiset(r)[q] == if HasTag(q, tag) then multiset(questions)[q] else 0 {
      FilterCounts(TagFilter(tag), questions, q);
    }
    r
  }

  /** A question matches a tag exactly when one of its own tags equals it up to case. */
  lemma HasTagIff(q: Question, tag: string)
    ensures HasTag(q, tag) <==> exists i :: 0 <= i < |q.tags| && Lower(q.tags[i]) == Lower(tag)
  {
    assert forall i :: 0 <= i < |q.tags| ==> LowerAll(q.tags)[i] == Lower(q.tags[i]);
  }

  /** Both selections keep a catalog without repeated entries free of repeats. */
  lemma SelectionsHaveNoDuplicates(questions: seq<Question>, branchName: string, tag: string)
    requires NoDuplicates(questions)
    ensures NoDuplicates(QuestionsByBranch(questions, branchName))
    ensures NoDuplicates(QuestionsByTag(questions, tag))
  {
    SubseqNoDuplicates(QuestionsByBranch(questions, branchName), questions);
    SubseqNoDuplicates(QuestionsByTag(questions, tag), questions);
  }
}
