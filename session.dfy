/** The chat page's session state (frontend/src/components/Independent.tsx): the
    React state fields of the page and the event handlers that change them.
    Each asynchronous completion (the answer of the chat service, the result of
    a question query) is a method of its own, called when it arrives; the
    network calls themselves are not modelled, and a query a handler starts is
    returned to the caller as a `Query` value. */
module Session {
  import opened Wrappers
  import opened Text
  import opened Questions

  datatype Role = User | Assistant

  /** `{ role, content }` */
  datatype Message = Message(role: Role, content: string)

  /** `{ key, description }`: one suggested question. */
  datatype Prompt = Prompt(key: string, description: string)

  /** The request `loadQuestions` issues: the questions of a branch, or those
      matching any of some tags. */
  datatype Query = ByBranch(branch: string) | ByTags(tags: seq<string>)

  /** What a submission did: nothing for blank input, a "please wait" warning
      while an answer is pending, or the text sent to the chat service. */
  datatype SubmitOutcome = IgnoredBlank | RejectedBusy | Sent(text: string)

  /** The branch the page starts on and queries when no tag is selected. */
  const GeneralBranch := "général"

  /** The message appended when the chat service fails. */
  const FailureNotice := "Something went wrong."

  /** The single item shown while no suggestion is available. */
  const LoadingPrompt := Prompt("loading", "Loading general questions...")

  /** The key of the first default conversation, the page's `curConversation`. */
  const DefaultConversation := "default-0"

  // -------------------------------------------------------------- suggestions

  /** The query `loadQuestions` issues for the selected tags: the general
      branch when no tag is selected, the tag search otherwise. */
  function QueryFor(tags: seq<string>): (q: Query)
    ensures q.ByBranch? <==> tags == []
    ensures q.ByBranch? ==> q.branch == GeneralBranch
    ensures q.ByTags? ==> q.tags == tags
  {
    if tags == [] then ByBranch(GeneralBranch) else ByTags(tags)
  }

  /** `{ key: q.id.toString(), description: q.question }` */
  function PromptOf(q: Question): Prompt
  {
    Prompt(IntToString(q.id), q.question)
  }

  /** The mapping shared by `loadQuestions` and `handleBranchSelect`: one
      prompt per question, in the order received. */
  function FormatPrompts(qs: seq<Question>): (ps: seq<Prompt>)
    ensures |ps| == |qs|
    ensures forall i :: 0 <= i < |qs| ==> ps[i].description == qs[i].question
  {
    seq(|qs|, i requires 0 <= i < |qs| => PromptOf(qs[i]))
  }

  /** A prompt's key reads back as its question's id. */
  lemma PromptKeysReadBack(qs: seq<Question>)
    ensures forall i :: 0 <= i < |qs| ==>
              IsNumeral(FormatPrompts(qs)[i].key) && ParseInt(FormatPrompts(qs)[i].key) == qs[i].id
  {
    forall i | 0 <= i < |qs|
      ensures IsNumeral(FormatPrompts(qs)[i].key) && ParseInt(FormatPrompts(qs)[i].key) == qs[i].id
    {
      IntToStringRoundTrip(qs[i].id);
    }
  }

  /** Questions with distinct ids give prompts with distinct keys, so the
      rendered list has unique React keys. */
  lemma PromptKeysDistinct(qs: seq<Question>)
    requires forall i, j :: 0 <= i < j < |qs| ==> qs[i].id != qs[j].id
    ensures forall i, j :: 0 <= i < j < |qs| ==> FormatPrompts(qs)[i].key != FormatPrompts(qs)[j].key
  {
    forall i, j | 0 <= i < j < |qs|
      ensures FormatPrompts(qs)[i].key != FormatPrompts(qs)[j].key
    {
      IntToStringInjective(qs[i].id, qs[j].id);
    }
  }

  /** The mapping works question by question: formatting two lists one after
      the other is formatting their concatenation. */
  lemma FormatPromptsAppend(a: seq<Question>, b: seq<Question>)
    ensures FormatPrompts(a + b) == FormatPrompts(a) + FormatPrompts(b)
  {
    var l, r := FormatPrompts(a + b), FormatPrompts(a) + FormatPrompts(b);
    forall i | 0 <= i < |l|
      ensures l[i] == r[i]
    {
      if i < |a| {
        assert (a + b)[i] == a[i];
      } else {
        assert (a + b)[i] == b[i - |a|];
      }
    }
  }

  /** The items of the suggestion list: the loaded prompts when there are
      some, otherwise the single loading item, which is itself clickable. */
  function DisplayedPrompts(dynamic: Option<seq<Prompt>>): (ps: seq<Prompt>)
    ensures ps != []
    ensures dynamic.Some? && dynamic.value != [] ==> ps == dynamic.value
    ensures dynamic.None? || dynamic.value == [] ==> ps == [LoadingPrompt]
  {
    if dynamic.Some? && |dynamic.value| > 0 then dynamic.value else [LoadingPrompt]
  }

  // ----------------------------------------------------------------- messages

  /** The message at `i`, if it is the user's, is followed at once by an
      assistant message. */
  predicate AnsweredAt(msgs: seq<Message>, i: nat)
    requires i < |msgs|
  {
    msgs[i].role == User ==> i + 1 < |msgs| && msgs[i + 1].role == Assistant
  }

  /** Every user message is followed at once by an assistant message: its
      placeholder, later filled with the answer or followed by the notice. */
  predicate WellPaired(msgs: seq<Message>)
  {
    forall i :: 0 <= i < |msgs| ==> AnsweredAt(msgs, i)
  }

  /** The conversation after an accepted submission of `val`. */
  function Submitted(msgs: seq<Message>, val: string): seq<Message>
  {
    msgs + [Message(User, val), Message(Assistant, "")]
  }

  /** The update of a successful answer: the last message takes the new
      content and keeps its role; every earlier message is unchanged. */
  function FillLast(msgs: seq<Message>, content: string): (r: seq<Message>)
    requires msgs != []
    ensures |r| == |msgs| && r[..|r| - 1] == msgs[..|msgs| - 1]
    ensures r[|r| - 1].role == msgs[|msgs| - 1].role && r[|r| - 1].content == content
  {
    msgs[..|msgs| - 1] + [msgs[|msgs| - 1].(content := content)]
  }

  /** An answer arriving right after its submission completes the turn: the
      user's message followed by the answer. */
  lemma AnswerCompletesTurn(msgs: seq<Message>, val: string, answer: string)
    ensures FillLast(Submitted(msgs, val), answer) == msgs + [Message(User, val), Message(Assistant, answer)]
  {
    var s := Submitted(msgs, val);
    assert s[..|s| - 1] == msgs + [Message(User, val)];
  }

  /** A failure right after a submission leaves the empty placeholder in place
      and adds the notice after it. */
  lemma FailureKeepsPlaceholder(msgs: seq<Message>, val: string)
    ensures Submitted(msgs, val) + [Message(Assistant, FailureNotice)]
            == msgs + [Message(User, val), Message(Assistant, ""), Message(Assistant, FailureNotice)]
    ensures |Submitted(msgs, val) + [Message(Assistant, FailureNotice)]| == |msgs| + 3
  {
  }

  /** A well-paired conversation never ends with a user message. */
  lemma PairedEndsWithAssistant(msgs: seq<Message>)
    requires WellPaired(msgs) && msgs != []
    ensures msgs[|msgs| - 1].role == Assistant
  {
    assert AnsweredAt(msgs, |msgs| - 1);
  }

  /** An accepted submission keeps the conversation well paired. */
  lemma SubmittedPaired(msgs: seq<Message>, val: string)
    requires WellPaired(msgs)
    ensures WellPaired(Submitted(msgs, val))
  {
    var s := Submitted(msgs, val);
    forall i | 0 <= i < |s|
      ensures AnsweredAt(s, i)
    {
      if i + 1 == |msgs| {
        PairedEndsWithAssistant(msgs);
      } else if i + 1 < |msgs| {
        assert AnsweredAt(msgs, i);
        assert s[i] == msgs[i] && s[i + 1] == msgs[i + 1];
      }
    }
  }

  /** Appending the failure notice keeps the conversation well paired. */
  lemma NoticePaired(msgs: seq<Message>)
    requires WellPaired(msgs)
    ensures WellPaired(msgs + [Message(Assistant, FailureNotice)])
  {
    var f := msgs + [Message(Assistant, FailureNotice)];
    forall i | 0 <= i < |f|
      ensures AnsweredAt(f, i)
    {
      if i < |msgs| {
        assert AnsweredAt(msgs, i);
        assert f[i] == msgs[i];
        if i + 1 < |msgs| {
          assert f[i + 1] == msgs[i + 1];
        }
      }
    }
  }

  /** Filling in the last message keeps the conversation well paired. */
  lemma FilledPaired(msgs: seq<Message>, answer: string)
    requires WellPaired(msgs) && msgs != []
    ensures WellPaired(FillLast(msgs, answer))
  {
    var g := FillLast(msgs, answer);
    PairedEndsWithAssistant(msgs);
    forall i | 0 <= i < |g|
      ensures AnsweredAt(g, i)
    {
      if i < |g| - 1 {
        assert AnsweredAt(msgs, i);
        assert g[i] == g[..|g| - 1][i] == msgs[i];
        if i + 1 < |g| - 1 {
          assert g[i + 1] == g[..|g| - 1][i + 1] == msgs[i + 1];
        }
      }
    }
  }

  // ------------------------------------------------------------------ history

  /** The history effect: a non-empty conversation is stored under its key,
      overwriting what was there; an empty one is not stored. */
  function Archive(history: map<string, seq<Message>>, key: string, msgs: seq<Message>): map<string, seq<Message>>
  {
    if |msgs| > 0 then history[key := msgs] else history
  }

  /** The stored conversation is the current one whenever that is not empty. */
  predicate HistorySynced(history: map<string, seq<Message>>, key: string, msgs: seq<Message>)
  {
    msgs != [] ==> key in history && history[key] == msgs
  }

  /** The effect writes the conversation's own key and no other, and writes
      nothing for an empty conversation. */
  lemma ArchiveKeepsOthers(history: map<string, seq<Message>>, key: string, msgs: seq<Message>)
    ensures msgs != [] ==> key in Archive(history, key, msgs) && Archive(history, key, msgs)[key] == msgs
    ensures msgs == [] ==> Archive(history, key, msgs) == history
    ensures forall k :: k != key ==>
              (k in Archive(history, key, msgs) <==> k in history)
              && (k in history ==> Archive(history, key, msgs)[k] == history[k])
  {
  }

  /** Running the effect again after it has run changes nothing. */
  lemma ArchiveSettles(history: map<string, seq<Message>>, key: string, msgs: seq<Message>)
    ensures HistorySynced(Archive(history, key, msgs), key, msgs)
    ensures Archive(Archive(history, key, msgs), key, msgs) == Archive(history, key, msgs)
    ensures HistorySynced(history, key, msgs) ==> Archive(history, key, msgs) == history
  {
  }

  /** What `onSubmit` does with `val` given the busy flag. */
  function SubmitOutcomeFor(val: string, busy: bool): (o: SubmitOutcome)
    ensures o == IgnoredBlank <==> IsBlank(val)
    ensures o == RejectedBusy <==> !IsBlank(val) && busy
    ensures o.Sent? ==> o.text == val
  {
    if IsBlank(val) then IgnoredBlank else if busy then RejectedBusy else Sent(val)
  }

  // ------------------------------------------------------------------ session

  /** The page's state. `abortControllerSet` stands for
      `abortController.current !== null`, which nothing ever makes true. */
  class ChatSession {
    var messages: seq<Message>
    var loading: bool
    var messageHistory: map<string, seq<Message>>
    var curConversation: string
    var inputValue: string
    var dynamicPrompts: Option<seq<Prompt>>
    var selectedBranch: string
    var selectedTags: seq<string>
    var abortControllerSet: bool

    /** The invariants every handler keeps: no abort controller, the default
        conversation, user messages answered in place, the `loading` flag set
        only while the conversation is non-empty (a reset clears both, even
        though its request may still answer later), and the history effect
        caught up. */
    predicate Valid()
      reads this
    {
      && !abortControllerSet
      && curConversation == DefaultConversation
      && WellPaired(messages)
      && (loading ==> messages != [])
      && HistorySynced(messageHistory, curConversation, messages)
    }

    /** The first render: the initial values of the `useState` hooks. */
    constructor ()
      ensures Valid()
      ensures messages == [] && !loading && messageHistory == map[]
      ensures curConversation == DefaultConversation && inputValue == ""
      ensures dynamicPrompts == None && selectedBranch == GeneralBranch && selectedTags == []
    {
      messages := [];
      loading := false;
      messageHistory := map[];
      curConversation := DefaultConversation;
      inputValue := "";
      dynamicPrompts := None;
      selectedBranch := GeneralBranch;
      selectedTags := [];
      abortControllerSet := false;
    }

    /** The `[selectedTags]` effect calling `loadQuestions`: the query for the
        current tags. Nothing changes until it completes. */
    method LoadQuestions() returns (q: Query)
      ensures q.ByBranch? <==> selectedTags == []
      ensures q.ByBranch? ==> q.branch == GeneralBranch
      ensures q.ByTags? ==> q.tags == selectedTags
    {
      q := QueryFor(selectedTags);
    }

    /** The tag selector changes: the tags are stored and the effect issues
        the query for them. */
    method SelectTags(tags: seq<string>) returns (q: Query)
      requires Valid()
      modifies this
      ensures Valid()
      ensures selectedTags == tags && q == QueryFor(tags)
      ensures unchanged(this`messages, this`loading, this`messageHistory, this`inputValue, this`dynamicPrompts, this`selectedBranch, this`curConversation)
    {
      selectedTags := tags;
      q := QueryFor(tags);
    }

    /** A question query answers: its questions become the suggestions, even
        when a later query was issued since (there is no stale-response guard). */
    method QueryCompleted(result: seq<Question>)
      requires Valid()
      modifies this
      ensures Valid()
      ensures dynamicPrompts == Some(FormatPrompts(result))
      ensures unchanged(this`messages, this`loading, this`messageHistory, this`inputValue, this`selectedTags, this`selectedBranch, this`curConversation)
    {
      dynamicPrompts := Some(FormatPrompts(result));
    }

    /** A question query fails: the suggestions become empty, so the loading
        item is shown again. */
    method QueryFailed()
      requires Valid()
      modifies this
      ensures Valid()
      ensures dynamicPrompts == Some([]) && DisplayedPrompts(dynamicPrompts) == [LoadingPrompt]
      ensures unchanged(this`messages, this`loading, this`messageHistory, this`inputValue, this`selectedTags, this`selectedBranch, this`curConversation)
    {
      dynamicPrompts := Some([]);
    }

    /** `handleBranchSelect`: the branch's questions become the suggestions,
        mapped as `loadQuestions` maps them, and the branch is selected. */
    method SelectBranch(questions: seq<Question>, branchKey: string)
      requires Valid()
      modifies this
      ensures Valid()
      ensures dynamicPrompts == Some(FormatPrompts(questions)) && selectedBranch == branchKey
      ensures unchanged(this`messages, this`loading, this`messageHistory, this`inputValue, this`selectedTags, this`curConversation)
    {
      dynamicPrompts := Some(FormatPrompts(questions));
      selectedBranch := branchKey;
    }

    /** `resetToStart`: the conversation, tags, input and branch go back to
        their start values and the busy flag is cleared. Two queries follow:
        the direct `loadQuestions()` call, whose closure still holds the tags
        from before the reset, and the effect fired by the new empty tag
        array, which asks for the general branch. The history keeps the
        conversation that was cleared. */
    method Reset() returns (queries: seq<Query>)
      requires Valid()
      modifies this
      ensures Valid()
      ensures messages == [] && selectedTags == [] && inputValue == ""
      ensures selectedBranch == GeneralBranch && !loading
      ensures queries == [QueryFor(old(selectedTags)), ByBranch(GeneralBranch)]
      ensures unchanged(this`messageHistory, this`dynamicPrompts, this`curConversation)
    {
      var stale := QueryFor(selectedTags);
      messages := [];
      selectedTags := [];
      inputValue := "";
      selectedBranch := GeneralBranch;
      loading := false;
      messageHistory := Archive(messageHistory, curConversation, messages);
      queries := [stale, QueryFor(selectedTags)];
    }

    /** `onSubmit(val)` up to the service call: blank input is ignored before
        the busy flag is looked at; while busy only a warning is shown;
        otherwise the user's message and an empty assistant placeholder are
        appended, the flag is set and the history effect stores the
        conversation. */
    method Submit(val: string) returns (outcome: SubmitOutcome)
      requires Valid()
      modifies this
      ensures Valid()
      ensures outcome == SubmitOutcomeFor(val, old(loading))
      ensures !outcome.Sent? ==> unchanged(this)
      ensures outcome.Sent? ==> messages == Submitted(old(messages), val) && loading
      ensures outcome.Sent? ==> messageHistory == Archive(old(messageHistory), curConversation, messages)
      ensures unchanged(this`inputValue, this`dynamicPrompts, this`selectedTags, this`selectedBranch, this`curConversation)
    {
      outcome := SubmitOutcomeFor(val, loading);
      if outcome.Sent? {
        SubmittedPaired(messages, val);
        messages := Submitted(messages, val);
        loading := true;
        messageHistory := Archive(messageHistory, curConversation, messages);
      }
    }

    /** The chat service answers: the last message, whichever it is by now,
        takes the trimmed answer, and the busy flag is cleared. */
    method AnswerArrived(answer: string)
      requires Valid()
      modifies this
      ensures Valid()
      ensures old(messages) != [] ==> messages == FillLast(old(messages), Trim(answer))
      ensures old(messages) == [] ==> messages == []
      ensures !loading
      ensures messageHistory == Archive(old(messageHistory), curConversation, messages)
      ensures unchanged(this`inputValue, this`dynamicPrompts, this`selectedTags, this`selectedBranch, this`curConversation)
    {
      FillReply(Trim(answer));
    }

    /** The updater that writes `reply` into the last message, then the
        `finally` clause and the history effect. */
    method FillReply(reply: string)
      requires Valid()
      modifies this
      ensures Valid()
      ensures old(messages) != [] ==> messages == FillLast(old(messages), reply)
      ensures old(messages) == [] ==> messages == []
      ensures !loading
      ensures messageHistory == Archive(old(messageHistory), curConversation, messages)
      ensures unchanged(this`inputValue, this`dynamicPrompts, this`selectedTags, this`selectedBranch, this`curConversation)
    {
      var filled := messages;
      if filled != [] {
        FilledPaired(filled, reply);
        filled := FillLast(filled, reply);
      }
      ArchiveSettles(messageHistory, curConversation, filled);
      messages, loading, messageHistory := filled, false, Archive(messageHistory, curConversation, filled);
    }

    /** The chat service fails: a notice is appended after the placeholder,
        which stays empty, and the busy flag is cleared. */
    method AnswerFailed()
      requires Valid()
      modifies this
      ensures Valid()
      ensures messages == old(messages) + [Message(Assistant, FailureNotice)] && !loading
      ensures messageHistory == Archive(old(messageHistory), curConversation, messages)
      ensures unchanged(this`inputValue, this`dynamicPrompts, this`selectedTags, this`selectedBranch, this`curConversation)
    {
      NoticePaired(messages);
      messages := messages + [Message(Assistant, FailureNotice)];
      loading := false;
      messageHistory := Archive(messageHistory, curConversation, messages);
    }

    /** The input box changes. */
    method InputChanged(value: string)
      requires Valid()
      modifies this
      ensures Valid()
      ensures inputValue == value
      ensures unchanged(this`messages, this`loading, this`messageHistory, this`dynamicPrompts, this`selectedTags, this`selectedBranch, this`curConversation)
    {
      inputValue := value;
    }

    /** The send button: the input is submitted, then cleared whatever the
        outcome. */
    method SendInput() returns (outcome: SubmitOutcome)
      requires Valid()
      modifies this
      ensures Valid()
      ensures outcome == SubmitOutcomeFor(old(inputValue), old(loading)) && inputValue == ""
      ensures outcome.Sent? ==> messages == Submitted(old(messages), old(inputValue)) && loading
      ensures !outcome.Sent? ==> unchanged(this`messages, this`loading)
      ensures messageHistory == Archive(old(messageHistory), curConversation, messages)
      ensures unchanged(this`dynamicPrompts, this`selectedTags, this`selectedBranch, this`curConversation)
    {
      outcome := Submit(inputValue);
      inputValue := "";
    }

    /** A click on suggestion `i` submits its description; the loading item
        is clickable too. */
    method PromptClicked(i: nat) returns (outcome: SubmitOutcome)
      requires Valid()
      requires i < |DisplayedPrompts(dynamicPrompts)|
      modifies this
      ensures Valid()
      ensures outcome == SubmitOutcomeFor(DisplayedPrompts(old(dynamicPrompts))[i].description, old(loading))
      ensures !outcome.Sent? ==> unchanged(this)
      ensures outcome.Sent? ==> messages == Submitted(old(messages), outcome.text) && loading
      ensures messageHistory == Archive(old(messageHistory), curConversation, messages)
      ensures unchanged(this`inputValue, this`dynamicPrompts, this`selectedTags, this`selectedBranch, this`curConversation)
    {
      outcome := Submit(DisplayedPrompts(dynamicPrompts)[i].description);
    }

    /** The cancel button: `abortController.current?.abort()` on a controller
        that is never set, so nothing is aborted and nothing changes. */
    method Cancel() returns (aborted: bool)
      requires Valid()
      ensures !aborted
    {
      aborted := abortControllerSet;
    }
  }

  // ---------------------------------------------------------------- scenarios

  /** A first question answered in time: the conversation is the question and
      the trimmed answer, and it is stored under the default conversation. */
  method FirstExchange(val: string, answer: string) returns (msgs: seq<Message>, stored: seq<Message>)
    requires !IsBlank(val)
    ensures msgs == [Message(User, val), Message(Assistant, Trim(answer))]
    ensures stored == msgs
  {
    var s := new ChatSession();
    var outcome := s.Submit(val);
    s.AnswerArrived(answer);
    AnswerCompletesTurn([], val, Trim(answer));
    msgs := s.messages;
    stored := s.messageHistory[DefaultConversation];
  }

  /** A second question while the first is pending is refused and does not
      change the conversation. */
  method BusySubmission(first: string, second: string) returns (outcome: SubmitOutcome, msgs: seq<Message>)
    requires !IsBlank(first) && !IsBlank(second)
    ensures outcome == RejectedBusy
    ensures msgs == [Message(User, first), Message(Assistant, "")]
  {
    var s := new ChatSession();
    var o := s.Submit(first);
    outcome := s.Submit(second);
    msgs := s.messages;
  }

  /** A reset while tags are selected: if the query issued with the old tags
      answers after the general one, the suggestions show the tag results
      although no tag is selected any more. */
  method StaleQueryAfterReset(tags: seq<string>, general: seq<Question>, byTags: seq<Question>)
    returns (queries: seq<Query>, selected: seq<string>, prompts: Option<seq<Prompt>>)
    requires tags != []
    ensures queries == [ByTags(tags), ByBranch(GeneralBranch)]
    ensures selected == [] && prompts == Some(FormatPrompts(byTags))
  {
    var s := new ChatSession();
    var q := s.SelectTags(tags);
    queries := s.Reset();
    s.QueryCompleted(general);
    s.QueryCompleted(byTags);
    selected := s.selectedTags;
    prompts := s.dynamicPrompts;
  }

  /** A failed answer followed by a reset: the page is back at its start, and
      the history still holds the failed exchange. */
  method FailedThenReset(val: string) returns (msgs: seq<Message>, stored: seq<Message>)
    requires !IsBlank(val)
    ensures msgs == []
    ensures stored == [Message(User, val), Message(Assistant, ""), Message(Assistant, FailureNotice)]
  {
    var s := new ChatSession();
    var outcome := s.Submit(val);
    s.AnswerFailed();
    var queries := s.Reset();
    msgs := s.messages;
    stored := s.messageHistory[DefaultConversation];
  }
}
