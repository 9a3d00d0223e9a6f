/** The chat assistant: a transcript of user and assistant messages, a
    one-request-at-a-time send cycle, and the line formatting of the
    assistant's answers into numbered steps, bullets and plain text. */
module AIChatbot {
  import opened Prelude

  // ---------------------------------------------------------------------
  // Formatting one answer

  /** How one line of an answer is shown: a step with its number and text,
      a bullet with its mark and text, the line as it is, or nothing. */
  datatype LineView = Step(number: string, text: string) | Bullet(mark: char, text: string) | Plain(line: string) | Blank

  /** End of the greedy `.+` starting at `i`: the run of characters that are
      not line terminators. */
  function DotRunEnd(s: string, i: nat): (j: nat)
    requires i <= |s|
    ensures i <= j <= |s|
    ensures forall k :: i <= k < j ==> !IsLineTerminator(s[k])
    ensures j < |s| ==> IsLineTerminator(s[j])
    decreases |s| - i
  {
    if i < |s| && !IsLineTerminator(s[i]) then DotRunEnd(s, i + 1) else i
  }

  predicate IsStepMark(c: char)
  {
    c == '.' || c == ')'
  }

  /** The meaning of `/^(\d+[\.\)])(.+)/`: some digits, then `.` or `)`,
      then at least one character that is not a line terminator. */
  ghost predicate StepMatches(line: string)
  {
    exists k :: StepAt(line, k)
  }

  /** The step pattern matching with the digits ending at `k`. */
  predicate StepAt(line: string, k: int)
  {
    1 <= k && k + 1 < |line| && DigitsBefore(line, k) && IsStepMark(line[k]) && !IsLineTerminator(line[k + 1])
  }

  predicate DigitsBefore(line: string, k: int)
    requires k <= |line|
  {
    forall i :: 0 <= i < k ==> IsDigit(line[i])
  }

  /** The bullet class of the formatter exactly as written: `-`, `*`, and
      the three characters `â`, `€`, `¢` that the UTF-8 bytes of `•` turn
      into when read as Windows-1252. */
  const WrittenBullets: set<char> := {'-', '*', '\U{E2}', '\U{20AC}', '\U{A2}'}

  /** The class the formatter evidently means: `-`, `*` and `•`. */
  const IntendedBullets: set<char> := {'-', '*', '\U{2022}'}

  /** The meaning of `/^([bullets])(.+)/`. */
  predicate BulletMatches(line: string, bullets: set<char>)
  {
    |line| >= 2 && line[0] in bullets && !IsLineTerminator(line[1])
  }

  /** Where the step number ends, if the line is a step: the digit run must
      reach a `.` or `)` that has a character after it. */
  function StepEnd(line: string): (k: nat)
    ensures k <= |line|
  {
    DigitRunEnd(line, 0)
  }

  predicate IsStep(line: string)
  {
    var k := StepEnd(line);
    1 <= k && k + 1 < |line| && IsStepMark(line[k]) && !IsLineTerminator(line[k + 1])
  }

  /** The greedy digit run is the only place the step pattern can match. */
  lemma StepIff(line: string)
    ensures IsStep(line) <==> StepMatches(line)
  {
    var e := StepEnd(line);
    if StepMatches(line) {
      var k :| StepAt(line, k);
      DigitRunFrom(line, 0, k);
    }
    if IsStep(line) {
      assert StepAt(line, e);
    }
  }

  /** A digit run from `i` reaches at least `k` when all of `i..k` are
      digits, and stops at `k` when `line[k]` is not one. */
  lemma {:induction false} DigitRunFrom(s: string, i: nat, k: nat)
    requires i <= k < |s| && (forall j :: i <= j < k ==> IsDigit(s[j])) && !IsDigit(s[k])
    ensures DigitRunEnd(s, i) == k
    decreases k - i
  {
    if i < k {
      DigitRunFrom(s, i + 1, k);
    }
  }

  /** How the formatter shows one line with a given bullet class: the step
      test first, then the bullet test, then plain text unless the line is
      blank. */
  function ClassifyWith(line: string, bullets: set<char>): (v: LineView)
    ensures v.Step? ==> IsStep(line) && v.number + v.text <= line
    ensures v.Step? ==> |v.number| >= 2 && IsStepMark(v.number[|v.number| - 1])
    ensures v.Bullet? ==> !IsStep(line) && BulletMatches(line, bullets) && v.mark == line[0]
    ensures v.Bullet? ==> [v.mark] + v.text <= line
    ensures (v.Step? || v.Bullet?) ==> v.text != [] && forall i :: 0 <= i < |v.text| ==> !IsLineTerminator(v.text[i])
    ensures v.Plain? ==> v.line == line
  {
    if IsStep(line) then
      var k := StepEnd(line);
      Step(line[..k + 1], line[k + 1..DotRunEnd(line, k + 1)])
    else if BulletMatches(line, bullets) then
      Bullet(line[0], line[1..DotRunEnd(line, 1)])
    else if Trim(line) != "" then Plain(line)
    else Blank
  }

  /** Which view a line gets, against the pattern meanings: a step exactly
      when the step pattern matches; a bullet exactly when only the bullet
      pattern does; otherwise plain text unless the line is all white
      space. */
  lemma ClassifyCases(line: string, bullets: set<char>)
    ensures ClassifyWith(line, bullets).Step? <==> StepMatches(line)
    ensures ClassifyWith(line, bullets).Bullet? <==> !StepMatches(line) && BulletMatches(line, bullets)
    ensures ClassifyWith(line, bullets).Blank? <==>
      !StepMatches(line) && !BulletMatches(line, bullets) && forall i :: 0 <= i < |line| ==> IsSpace(line[i])
  {
    StepIff(line);
    TrimEmptyIff(line);
  }

  /** The formatter's own line classifier. */
  function FormatLine(line: string): (v: LineView)
    ensures v.Step? <==> StepMatches(line)
    ensures v.Bullet? <==> !StepMatches(line) && BulletMatches(line, WrittenBullets)
    ensures v.Blank? <==>
      !StepMatches(line) && !BulletMatches(line, WrittenBullets) && forall i :: 0 <= i < |line| ==> IsSpace(line[i])
  {
    ClassifyCases(line, WrittenBullets);
    ClassifyWith(line, WrittenBullets)
  }

  /** `formatMessage`: one view per line of `content.split('\n')`, in order. */
  function FormatMessage(content: string): (r: seq<LineView>)
    ensures |r| == |Split(content, '\n')| == CountChar(content, '\n') + 1
    ensures forall i :: 0 <= i < |r| ==> r[i] == FormatLine(Split(content, '\n')[i])
  {
    SplitCount(content, '\n');
    var lines := Split(content, '\n');
    seq(|lines|, i requires 0 <= i < |lines| => FormatLine(lines[i]))
  }

  /** As written, a line that starts with a real `•` is shown as plain text. */
  lemma BulletDotIsPlain()
    ensures FormatLine("\U{2022} Save first") == Plain("\U{2022} Save first")
  {
    var line := "\U{2022} Save first";
    assert StepEnd(line) == 0;
    assert !IsStep(line);
    assert line[0] !in WrittenBullets;
    assert !BulletMatches(line, WrittenBullets);
    assert !IsSpace(line[0]);
    TrimEmptyIff(line);
  }

  /** With the intended class, every line that starts with `•` followed by a
      character is a bullet marked `•`. */
  lemma IntendedBulletDot(line: string)
    requires |line| >= 2 && line[0] == '\U{2022}' && !IsLineTerminator(line[1])
    ensures ClassifyWith(line, IntendedBullets).Bullet?
    ensures ClassifyWith(line, IntendedBullets).mark == '\U{2022}'
  {
    assert StepEnd(line) == 0;
  }

  // ---------------------------------------------------------------------
  // The chat

  datatype Sender = User | Assistant

  datatype Message = Message(id: string, content: string, sender: Sender, timestamp: nat)

  /** How a message is shown: answers are formatted line by line, the
      user's own words are shown as typed. */
  datatype MessageView = Formatted(lines: seq<LineView>) | Verbatim(content: string)

  function View(m: Message): (v: MessageView)
    ensures m.sender == Assistant <==> v.Formatted?
    ensures v.Verbatim? ==> v.content == m.content
  {
    if m.sender == Assistant then Formatted(FormatMessage(m.content)) else Verbatim(m.content)
  }

  const WelcomeText := "Hello! I'm your AI assistant. I can help you with step-by-step instructions for budgeting, investments, financial planning, and more. How can I assist you today?"
  const FallbackText := "I apologize, but I couldn't process your request at the moment. Please try again."
  const ApologyText := "I'm sorry, I'm having trouble connecting right now. Please try again in a moment."

  /** What the assistant service gave back: an answer (whose `response`
      field may be missing or empty), or an error. */
  datatype Reply = Answered(response: Option<string>) | Failed

  /** The text of the assistant's message for a reply. */
  function ReplyText(reply: Reply): (t: string)
    ensures t != ""
    ensures reply.Failed? ==> t == ApologyText
    ensures reply.Answered? && reply.response.Some? && reply.response.value != "" ==> t == reply.response.value
    ensures reply.Answered? && (reply.response.None? || reply.response == Some("")) ==> t == FallbackText
  {
    match reply
    case Failed => ApologyText
    case Answered(r) => OrElse(if r.Some? then r.value else "", FallbackText)
  }

  class Chat {
    var isOpen: bool
    var messages: seq<Message>
    var inputValue: string
    var isLoading: bool

    /** The send button's `disabled`. */
    function SendDisabled(): (r: bool)
      reads this
      ensures r <==> isLoading || forall i :: 0 <= i < |inputValue| ==> IsSpace(inputValue[i])
    {
      TrimEmptyIff(inputValue);
      Trim(inputValue) == "" || isLoading
    }

    /** Every message but the first one is a user message or directly
        follows one: the assistant speaks first with the welcome, and then
        once per question. */
    ghost predicate Alternates()
      reads this
    {
      forall i :: 1 <= i < |messages| && messages[i].sender == Assistant ==> messages[i - 1].sender == User
    }

    /** While a request is pending the last message is the question. */
    ghost predicate Valid()
      reads this
    {
      Alternates() && (isLoading ==> |messages| >= 1 && messages[|messages| - 1].sender == User)
    }

    constructor()
      ensures !isOpen && messages == [] && inputValue == "" && !isLoading
      ensures Valid()
    {
      isOpen, messages, inputValue, isLoading := false, [], "", false;
    }

    method SetInput(v: string)
      modifies this
      ensures inputValue == v && isOpen == old(isOpen) && messages == old(messages) && isLoading == old(isLoading)
    {
      inputValue := v;
    }

    /** Opening the window; the greeting effect then adds the welcome
        message, but only to an empty transcript. */
    method Open(now: nat)
      requires Valid()
      modifies this
      ensures isOpen && inputValue == old(inputValue) && isLoading == old(isLoading)
      ensures old(messages) == [] ==> messages == [Message("welcome", WelcomeText, Assistant, now)]
      ensures old(messages) != [] ==> messages == old(messages)
      ensures Valid()
    {
      isOpen := true;
      if isOpen && |messages| == 0 {
        messages := [Message("welcome", WelcomeText, Assistant, now)];
      }
    }

    method Close()
      modifies this
      ensures !isOpen && messages == old(messages) && inputValue == old(inputValue) && isLoading == old(isLoading)
    {
      isOpen := false;
    }

    /** The synchronous half of `sendMessage`: with a blank input or a
        request pending nothing happens; otherwise the trimmed question is
        appended, the input cleared, and the request (the question) issued.
        The clock is read twice, for the id and for the timestamp. */
    method SendMessage(idNow: nat, stampNow: nat) returns (request: Option<string>)
      requires Valid()
      modifies this
      ensures old(SendDisabled()) ==>
        request.None? && messages == old(messages) && inputValue == old(inputValue) && isLoading == old(isLoading)
      ensures !old(SendDisabled()) ==>
        request == Some(Trim(old(inputValue))) && inputValue == "" && isLoading
        && messages == old(messages) + [Message(NatToString(idNow), Trim(old(inputValue)), User, stampNow)]
      ensures isOpen == old(isOpen)
      ensures Valid()
    {
      if Trim(inputValue) == "" || isLoading {
        return None;
      }
      var userMessage := Message(NatToString(idNow), Trim(inputValue), User, stampNow);
      messages := messages + [userMessage];
      inputValue := "";
      isLoading := true;
      request := Some(userMessage.content);
    }

    /** The asynchronous half: exactly one assistant message is appended,
        the answer, the fallback or the apology, and loading ends. Its id
        and its timestamp come from two later clock readings. */
    method Receive(reply: Reply, idLater: nat, stampLater: nat)
      requires Valid() && isLoading
      modifies this
      ensures messages == old(messages) + [Message(NatToString(idLater + 1), ReplyText(reply), Assistant, stampLater)]
      ensures !isLoading && isOpen == old(isOpen) && inputValue == old(inputValue)
      ensures Valid()
    {
      var content := ReplyText(reply);
      messages := messages + [Message(NatToString(idLater + 1), content, Assistant, stampLater)];
      isLoading := false;
    }

    /** Enter without Shift sends; any other key does nothing here. */
    method HandleKeyPress(key: string, shiftKey: bool, idNow: nat, stampNow: nat) returns (request: Option<string>)
      requires Valid()
      modifies this
      ensures !(key == "Enter" && !shiftKey) || old(SendDisabled()) ==>
        request.None? && messages == old(messages) && inputValue == old(inputValue) && isLoading == old(isLoading)
      ensures key == "Enter" && !shiftKey && !old(SendDisabled()) ==>
        request == Some(Trim(old(inputValue))) && isLoading && inputValue == ""
        && messages == old(messages) + [Message(NatToString(idNow), Trim(old(inputValue)), User, stampNow)]
      ensures isOpen == old(isOpen)
      ensures Valid()
    {
      if key == "Enter" && !shiftKey {
        request := SendMessage(idNow, stampNow);
      } else {
        request := None;
      }
    }
  }
}
