/** Selection of catalog questions by several user tags
    (backend/controllers/tag_controller.py, `get_questions_by_tags`).
    Loading the JSON catalog is not modelled: the loaded list is a parameter,
    and the raised `HTTPException` is the `Failure` of a `Result`. */
module Tags {
  import opened Wrappers
  import opened Text
  import opened Seqs
  import opened Questions

  /** An `HTTPException` raised to the web framework. */
  datatype HttpError = HttpError(statusCode: int, detail: string)

  /** The error raised when no question matches. */
  const NotFound := HttpError(404, "No questions found for the provided tags.")

  /** `[tag.strip().lower() for tag in user_tags]` */
  function NormalizedTags(userTags: seq<string>): seq<string>
  {
    seq(|userTags|, i requires 0 <= i < |userTags| => Lower(Trim(userTags[i])))
  }

  /** `any(tag in question_tags for tag in lowered_tags)`, where `question_tags`
      holds the question's tags lower-cased but not stripped. */
  predicate MatchesAny(q: Question, lowered: seq<string>)
  {
    exists t :: t in lowered && t in LowerAll(q.tags)
  }

  function TagsFilter(lowered: seq<string>): Question -> bool
  {
    q => MatchesAny(q, lowered)
  }

  /** `get_questions_by_tags`: the matching questions in catalog order, or the
      404 error when there are none, so a returned list is never empty. */
  method QuestionsByTags(questions: seq<Question>, userTags: seq<string>) returns (r: Result<seq<Question>, HttpError>)
    ensures r.Success? ==> r.value == Filter(TagsFilter(NormalizedTags(userTags)), questions) && r.value != []
    ensures r.Failure? <==> forall q :: q in questions ==> !MatchesAny(q, NormalizedTags(userTags))
    ensures r.Failure? ==> r.error == NotFound
    ensures userTags == [] ==> r == Failure(NotFound)
    ensures r.Success? && NoDuplicates(questions) ==> NoDuplicates(r.value)
  {
    var lowered := NormalizedTags(userTags);
    var matched := SelectLoop(TagsFilter(lowered), questions);
    if matched == [] {
      assert forall q :: q in questions ==> !MatchesAny(q, lowered);
      return Failure(NotFound);
    }
    assert matched[0] in matched;
    if NoDuplicates(questions) {
      SubseqNoDuplicates(matched, questions);
    }
    return Success(matched);
  }

  /** User tags are stripped and lower-cased, catalog tags only lower-cased: a
      question matches exactly when some stripped, lower-cased user tag equals
      some lower-cased tag of the question. */
  lemma MatchesAnyIff(q: Question, userTags: seq<string>)
    ensures MatchesAny(q, NormalizedTags(userTags))
        <==> exists i, j :: 0 <= i < |userTags| && 0 <= j < |q.tags| && Lower(Trim(userTags[i])) == Lower(q.tags[j])
  {
    if MatchesAny(q, NormalizedTags(userTags)) {
      MatchWitness(q, userTags);
    }
    if exists i, j :: 0 <= i < |userTags| && 0 <= j < |q.tags| && Lower(Trim(userTags[i])) == Lower(q.tags[j]) {
      var i, j :| 0 <= i < |userTags| && 0 <= j < |q.tags| && Lower(Trim(userTags[i])) == Lower(q.tags[j]);
      PairMatches(q, userTags, i, j);
    }
  }

  lemma MatchWitness(q: Question, userTags: seq<string>)
    requires MatchesAny(q, NormalizedTags(userTags))
    ensures exists i, j :: 0 <= i < |userTags| && 0 <= j < |q.tags| && Lower(Trim(userTags[i])) == Lower(q.tags[j])
  {
    var lowered := NormalizedTags(userTags);
    var tags := LowerAll(q.tags);
    var t :| t in lowered && t in tags;
    var i :| 0 <= i < |lowered| && lowered[i] == t;
    var j :| 0 <= j < |tags| && tags[j] == t;
    assert Lower(Trim(userTags[i])) == Lower(q.tags[j]);
  }

  lemma PairMatches(q: Question, userTags: seq<string>, i: int, j: int)
    requires 0 <= i < |userTags| && 0 <= j < |q.tags| && Lower(Trim(userTags[i])) == Lower(q.tags[j])
    ensures MatchesAny(q, NormalizedTags(userTags))
  {
    var lowered := NormalizedTags(userTags);
    var tags := LowerAll(q.tags);
    assert lowered[i] == tags[j];
    assert lowered[i] in lowered && tags[j] in tags;
  }

  /** Whitespace in front of a user tag is forgiven: it selects the same
      questions as the tag without it. */
  lemma UserTagPaddingIgnored(u: string, c: char)
    requires IsSpace(c)
    ensures NormalizedTags([[c] + u]) == NormalizedTags([u])
  {
    var p := [c] + u;
    TrimSkipsLeadingSpace(c, u);
    assert Lower(Trim(p)) == Lower(Trim(u));
    assert NormalizedTags([p])[0] == Lower(Trim(p));
    assert NormalizedTags([u])[0] == Lower(Trim(u));
  }

  /** Whitespace in front of a catalog tag is not forgiven: such a tag equals
      no stripped, lower-cased user tag, so it never causes a match. */
  lemma PaddedQuestionTagNeverMatches(u: string, t: string)
    requires t != [] && IsSpace(t[0])
    ensures Lower(Trim(u)) != Lower(t)
  {
    var r := Trim(u);
    assert IsSpace(Lower(t)[0]);
    if r != [] {
      assert !IsSpace(Lower(r)[0]);
    }
  }
}
