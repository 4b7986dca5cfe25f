/**
  The per-browser session: the transcript and the last itinerary the wizard
  produced, together with the five actions that change them (reset, the chat
  input, the trip wizard, the packing checklist and the suggested-question
  chips) and the Markdown export that reads them.
 */
module Sessions {
  import opened Wrappers
  import opened Text
  import opened Transcript
  import opened Prompts
  import opened Export

  /** What the page shows after an action. */
  datatype Outcome =
    | Answered            // the assistant's answer was appended
    | CallFailed          // the completion call raised; the user message stays unanswered
    | MissingDestination  // the wizard warned about an empty destination and sent nothing
    | NoInput             // the chat input was empty, so nothing happened

  function OutcomeOf(answer: Option<string>): Outcome
  {
    if answer.Some? then Answered else CallFailed
  }

  class Session {
    var messages: seq<Message>
    var quickItineraryMd: string

    /**
      The transcript is well formed, and the saved itinerary is empty or one
      of the assistant's answers in it.
     */
    ghost predicate Valid()
      reads this
    {
      && WellFormed(messages)
      && (quickItineraryMd == "" || Message(Assistant, quickItineraryMd) in messages)
    }

    /** The first run of the page seeds the session. */
    constructor ()
      ensures Valid()
      ensures messages == Seed() && quickItineraryMd == ""
    {
      messages := Seed();
      quickItineraryMd := "";
    }

    /** The reset button clears the session; the run that follows seeds it afresh. */
    method Reset()
      modifies this
      ensures Valid()
      ensures messages == Seed() && quickItineraryMd == ""
    {
      messages := Seed();
      quickItineraryMd := "";
    }

    /**
      The block every action shares: append the user message, send the whole
      transcript, and append the answer only if the call returned one.
     */
    method Send(prompt: string, complete: Completion) returns (answer: Option<string>)
      requires Valid()
      modifies this`messages
      ensures Valid()
      ensures answer == complete(Sent(old(messages), prompt))
      ensures messages == Exchange(old(messages), prompt, complete)
    {
      messages := messages + [Message(User, prompt)];
      answer := complete(messages);
      if answer.Some? {
        messages := messages + [Message(Assistant, answer.value)];
      }
    }

    /** The chat input at the bottom of the page; an empty input does nothing. */
    method Ask(text: string, complete: Completion) returns (outcome: Outcome)
      requires Valid()
      modifies this`messages
      ensures Valid() && quickItineraryMd == old(quickItineraryMd)
      ensures text == "" ==> outcome == NoInput && messages == old(messages)
      ensures text != "" ==>
                && messages == Exchange(old(messages), text, complete)
                && outcome == OutcomeOf(complete(Sent(old(messages), text)))
    {
      if text == "" {
        return NoInput;
      }
      var answer := Send(text, complete);
      outcome := OutcomeOf(answer);
    }

    /**
      The quick trip wizard button: with an empty destination it only warns;
      otherwise it sends the wizard prompt and, on an answer, saves that
      answer as the latest itinerary.
     */
    method Wizard(req: WizardRequest, complete: Completion) returns (outcome: Outcome)
      requires Valid()
      modifies this
      ensures Valid()
      ensures req.destination == "" ==>
                && outcome == MissingDestination
                && messages == old(messages)
                && quickItineraryMd == old(quickItineraryMd)
      ensures req.destination != "" ==>
                && messages == Exchange(old(messages), WizardPrompt(req).value, complete)
                && outcome == OutcomeOf(complete(Sent(old(messages), WizardPrompt(req).value)))
      ensures outcome == Answered ==>
                && messages[|messages| - 1].role == Assistant
                && quickItineraryMd == messages[|messages| - 1].content
      ensures outcome != Answered ==> quickItineraryMd == old(quickItineraryMd)
    {
      var prompt := WizardPrompt(req);
      if prompt.None? {
        return MissingDestination;
      }
      var answer := Send(prompt.value, complete);
      outcome := OutcomeOf(answer);
      if answer.Some? {
        quickItineraryMd := answer.value;
      }
    }

    /** The packing checklist button; it has no required field. */
    method Pack(req: PackRequest, complete: Completion) returns (outcome: Outcome)
      requires Valid()
      modifies this`messages
      ensures Valid() && quickItineraryMd == old(quickItineraryMd)
      ensures messages == Exchange(old(messages), PackPrompt(req), complete)
      ensures outcome == OutcomeOf(complete(Sent(old(messages), PackPrompt(req))))
    {
      var answer := Send(PackPrompt(req), complete);
      outcome := OutcomeOf(answer);
    }

    /** The `i`-th suggested-question chip: sends its fixed question. */
    method Chip(i: nat, complete: Completion) returns (outcome: Outcome)
      requires i < |Chips|
      requires Valid()
      modifies this`messages
      ensures Valid() && quickItineraryMd == old(quickItineraryMd)
      ensures messages == Exchange(old(messages), Chips[i], complete)
      ensures outcome == OutcomeOf(complete(Sent(old(messages), Chips[i])))
    {
      var answer := Send(Chips[i], complete);
      outcome := OutcomeOf(answer);
    }

    /**
      The Markdown download: collects the title and two lines per spoken
      message, skipping the system instruction, then joins them with newlines.
     */
    method ExportMd() returns (md: string)
      ensures md == Markdown(messages)
    {
      var lines := [Header];
      for i := 0 to |messages|
        invariant lines == [Header] + BodyLines(messages[..i])
      {
        var m := messages[i];
        BodyLinesPrefix(messages, i);
        if m.role == System {
          continue;
        }
        var prefix := if m.role == User then UserHeading else BotHeading;
        ghost var before := lines;
        lines := lines + [prefix + "\n"];
        lines := lines + [m.content + "\n"];
        assert lines == before + MessageLines(m);
      }
      assert messages[..|messages|] == messages;
      md := Join(lines, "\n");
    }
  }
}
