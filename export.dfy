/**
  The Markdown export of the transcript: a fixed title line, then for each
  message that is not the system instruction a heading line naming the
  speaker and a line with the content, all joined with newlines.
 */
module Export {
  import opened Text
  import opened Transcript

  const Header: string := "# 여행 추천 챗봇 대화 내역\n"
  const UserHeading: string := "### 사용자"
  const BotHeading: string := "### 챗봇"

  /** The heading for a speaker: the user heading for the user, the bot heading for anyone else. */
  function Heading(role: Role): (h: string)
    ensures h == UserHeading <==> role == User
    ensures h == BotHeading <==> role != User
  {
    if role == User then UserHeading else BotHeading
  }

  /** The two lines a message contributes; the system instruction contributes none. */
  function MessageLines(m: Message): seq<string>
  {
    if m.role == System then [] else [Heading(m.role) + "\n", m.content + "\n"]
  }

  /** The messages of `t` that appear in the export, in transcript order. */
  function Spoken(t: seq<Message>): (r: seq<Message>)
    ensures |r| <= |t|
    ensures forall k :: 0 <= k < |r| ==> r[k].role != System
  {
    if |t| == 0 then []
    else Spoken(t[..|t| - 1]) + (if t[|t| - 1].role == System then [] else [t[|t| - 1]])
  }

  /** The lines after the title. */
  function BodyLines(t: seq<Message>): (r: seq<string>)
    ensures |r| == 2 * |Spoken(t)|
  {
    if |t| == 0 then [] else BodyLines(t[..|t| - 1]) + MessageLines(t[|t| - 1])
  }

  /** Every line of the export, title first. */
  function ExportLines(t: seq<Message>): seq<string>
  {
    [Header] + BodyLines(t)
  }

  /** The downloaded Markdown document. */
  function Markdown(t: seq<Message>): string
  {
    Join(ExportLines(t), "\n")
  }

  lemma SpokenSnoc(t: seq<Message>, m: Message)
    ensures Spoken(t + [m]) == Spoken(t) + (if m.role == System then [] else [m])
    ensures BodyLines(t + [m]) == BodyLines(t) + MessageLines(m)
  {
  }

  lemma BodyLinesPrefix(t: seq<Message>, i: nat)
    requires i < |t|
    ensures BodyLines(t[..i + 1]) == BodyLines(t[..i]) + MessageLines(t[i])
  {
    assert t[..i + 1] == t[..i] + [t[i]];
    SpokenSnoc(t[..i], t[i]);
  }

  /** For every transcript: the title, then two lines per spoken message. */
  lemma ExportLinesShape(t: seq<Message>)
    ensures |ExportLines(t)| == 1 + 2 * |Spoken(t)| && ExportLines(t)[0] == Header
  {
  }

  /** In a session's transcript, every message after the system instruction is exported, in order. */
  lemma {:induction false} SpokenOfWellFormed(t: seq<Message>)
    requires WellFormed(t)
    ensures Spoken(t) == t[1..]
    decreases |t|
  {
    if |t| == 1 {
      SpokenSnoc([], t[0]);
      assert [] + [t[0]] == t;
    } else {
      var init, last := t[..|t| - 1], t[|t| - 1];
      assert init + [last] == t;
      WellFormedPrefix(t, |t| - 1);
      SpokenOfWellFormed(init);
      SpokenSnoc(init, last);
      assert t[1..] == init[1..] + [last];
    }
  }

  /**
    For a session's transcript, export lines 1 + 2j and 2 + 2j are the
    heading and the content of message j + 1.
   */
  lemma SessionExportLinesAt(t: seq<Message>, j: nat)
    requires WellFormed(t) && j + 1 < |t|
    ensures |ExportLines(t)| == 2 * |t| - 1
    ensures ExportLines(t)[1 + 2 * j] == Heading(t[j + 1].role) + "\n"
    ensures ExportLines(t)[2 + 2 * j] == t[j + 1].content + "\n"
  {
    SpokenOfWellFormed(t);
    ExportLinesAt(t, j);
  }

  /**
    The export lines, in order: the title, then for the j-th spoken message
    its heading line and its content line.
   */
  lemma {:induction false} ExportLinesAt(t: seq<Message>, j: nat)
    requires j < |Spoken(t)|
    ensures |ExportLines(t)| == 1 + 2 * |Spoken(t)| && ExportLines(t)[0] == Header
    ensures ExportLines(t)[1 + 2 * j] == Heading(Spoken(t)[j].role) + "\n"
    ensures ExportLines(t)[2 + 2 * j] == Spoken(t)[j].content + "\n"
  {
    BodyLinesAt(t, j);
  }

  lemma {:induction false} BodyLinesAt(t: seq<Message>, j: nat)
    requires j < |Spoken(t)|
    ensures BodyLines(t)[2 * j] == Heading(Spoken(t)[j].role) + "\n"
    ensures BodyLines(t)[2 * j + 1] == Spoken(t)[j].content + "\n"
  {
    var init, last := t[..|t| - 1], t[|t| - 1];
    assert init + [last] == t;
    SpokenSnoc(init, last);
    if j < |Spoken(init)| {
      BodyLinesAt(init, j);
    }
  }

  /** The export depends only on the spoken messages. */
  lemma {:induction false} BodyLinesOfSpoken(t: seq<Message>)
    ensures BodyLines(Spoken(t)) == BodyLines(t)
  {
    if |t| > 0 {
      var init, last := t[..|t| - 1], t[|t| - 1];
      BodyLinesOfSpoken(init);
      SpokenSnoc(Spoken(init), last);
      if last.role != System {
        assert Spoken(t) == Spoken(init) + [last];
      } else {
        assert Spoken(t) == Spoken(init);
      }
    }
  }

  lemma {:induction false} SpokenInsertSystem(t: seq<Message>, i: nat, instruction: string)
    requires i <= |t|
    ensures Spoken(t[..i] + [Message(System, instruction)] + t[i..]) == Spoken(t)
    decreases |t|
  {
    var s := Message(System, instruction);
    var u := t[..i] + [s] + t[i..];
    if i == |t| {
      assert u == t + [s];
      SpokenSnoc(t, s);
    } else {
      var init := t[..|t| - 1];
      SpokenInsertSystem(init, i, instruction);
      assert u == (init[..i] + [s] + init[i..]) + [t[|t| - 1]];
      SpokenSnoc(init[..i] + [s] + init[i..], t[|t| - 1]);
      assert init + [t[|t| - 1]] == t;
      SpokenSnoc(init, t[|t| - 1]);
    }
  }

  /**
    System messages leave no trace in the export: inserting one, whatever its
    content and wherever it goes, gives the same Markdown.
   */
  lemma ExportIgnoresSystem(t: seq<Message>, i: nat, instruction: string)
    requires i <= |t|
    ensures Markdown(t[..i] + [Message(System, instruction)] + t[i..]) == Markdown(t)
  {
    var u := t[..i] + [Message(System, instruction)] + t[i..];
    SpokenInsertSystem(t, i, instruction);
    BodyLinesOfSpoken(t);
    BodyLinesOfSpoken(u);
  }

  /** The Markdown document begins with the title. */
  lemma MarkdownStartsWithHeader(t: seq<Message>)
    ensures |Header| <= |Markdown(t)| && Markdown(t)[..|Header|] == Header
  {
    JoinStartsWithFirst(ExportLines(t), "\n");
  }

  /** A fresh session exports the title alone. */
  lemma FreshExport()
    ensures Markdown(Seed()) == Header
  {
  }

  /** Appending a spoken message adds its heading and its content, each after a newline. */
  lemma MarkdownSnoc(t: seq<Message>, m: Message)
    requires m.role != System
    ensures Markdown(t + [m])
         == Markdown(t) + "\n" + (Heading(m.role) + "\n") + "\n" + (m.content + "\n")
  {
    SpokenSnoc(t, m);
    var lines := ExportLines(t);
    assert ExportLines(t + [m]) == lines + [Heading(m.role) + "\n"] + [m.content + "\n"];
    JoinSnoc(lines, Heading(m.role) + "\n", "\n");
    JoinSnoc(lines + [Heading(m.role) + "\n"], m.content + "\n", "\n");
  }

  /** A failed call still exports the unanswered prompt under the user heading. */
  lemma MarkdownAfterFailure(t: seq<Message>, prompt: string)
    ensures Markdown(t + [Message(User, prompt)])
         == Markdown(t) + "\n" + (UserHeading + "\n") + "\n" + (prompt + "\n")
  {
    MarkdownSnoc(t, Message(User, prompt));
  }

  /**
    A successful exchange extends the export by the user's heading and
    prompt and then the bot's heading and answer.
   */
  lemma MarkdownAfterAnswer(t: seq<Message>, prompt: string, answer: string)
    ensures Markdown(t + [Message(User, prompt), Message(Assistant, answer)])
         == Markdown(t) + "\n" + (UserHeading + "\n") + "\n" + (prompt + "\n")
            + "\n" + (BotHeading + "\n") + "\n" + (answer + "\n")
  {
    var q, a := Message(User, prompt), Message(Assistant, answer);
    MarkdownSnoc(t, q);
    MarkdownSnoc(t + [q], a);
    assert t + [q] + [a] == t + [q, a];
  }

  /** What one action does to the export: the prompt always, the answer when there is one. */
  lemma MarkdownAfterExchange(t: seq<Message>, prompt: string, complete: Completion)
    ensures complete(Sent(t, prompt)).None? ==>
              Markdown(Exchange(t, prompt, complete))
              == Markdown(t) + "\n" + (UserHeading + "\n") + "\n" + (prompt + "\n")
    ensures complete(Sent(t, prompt)).Some? ==>
              Markdown(Exchange(t, prompt, complete))
              == Markdown(t) + "\n" + (UserHeading + "\n") + "\n" + (prompt + "\n")
                 + "\n" + (BotHeading + "\n") + "\n" + (complete(Sent(t, prompt)).value + "\n")
  {
    var answer := complete(Sent(t, prompt));
    if answer.Some? {
      assert Exchange(t, prompt, complete) == t + [Message(User, prompt), Message(Assistant, answer.value)];
      MarkdownAfterAnswer(t, prompt, answer.value);
    } else {
      MarkdownAfterFailure(t, prompt);
    }
  }

  /** Only system messages are left out of the export. */
  lemma {:induction false} SpokenLength(t: seq<Message>)
    ensures |Spoken(t)| == |t| - Count(t, System)
  {
    if |t| > 0 {
      var init, last := t[..|t| - 1], t[|t| - 1];
      assert init + [last] == t;
      SpokenLength(init);
      SpokenSnoc(init, last);
      CountSnoc(init, last, System);
    }
  }

  /**
    A session's transcript exports to the title plus two lines for every
    message but the system instruction.
   */
  lemma ExportLineCount(t: seq<Message>)
    requires WellFormed(t)
    ensures |ExportLines(t)| == 2 * |t| - 1
  {
    SpokenLength(t);
    AnswersNeverExceedQuestions(t);
  }
}
