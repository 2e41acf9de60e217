/** The texts themselves: what is printed, letter by letter, and exactly which texts are read as what. */
module WireLaws {
  import opened Collections
  import opened Decimal
  import opened Fields
  import opened TaskWire
  import opened TaskFate
  import opened Wire

  ghost predicate StandsAt(s: string, part: string, i: nat) {
    i + |part| <= |s| && s[i..i + |part|] == part
  }

  /** Python's `part in s`. */
  lemma {:induction false} ContainsIff(s: string, part: string)
    ensures Contains(s, part) <==> exists i :: StandsAt(s, part, i)
  {
    if |part| <= |s| {
      assert s[0..|part|] == s[..|part|];
      if s[..|part|] == part {
        assert StandsAt(s, part, 0);
      } else {
        ContainsIff(s[1..], part);
        forall i: nat ensures StandsAt(s[1..], part, i) <==> StandsAt(s, part, i + 1) {
          if i + 1 + |part| <= |s| { assert s[1..][i..i + |part|] == s[i + 1..i + 1 + |part|]; }
        }
        if j: nat :| StandsAt(s, part, j) {
          assert j > 0;
          assert StandsAt(s[1..], part, j - 1);
        }
      }
    }
  }

  // ---- requests

  function TextOfRequest(r: Request): string {
    match r
    case WantTask(sender) => "TASK_REQ|" + sender
    case Finished(sender, tid) => "TASK_FIN|" + sender + "|" + tid
    case Beat(sender) => "HEARTBEAT|" + sender
  }

  ghost predicate GoodNames(r: Request) {
    && r.sender != "" && '|' !in r.sender
    && (r.Finished? ==> r.tid != "" && '|' !in r.tid)
  }

  lemma RequestPrints(r: Request)
    requires r.sender != "" && (r.Finished? ==> r.tid != "")
    ensures EncodeRequest(r) == Ok(TextOfRequest(r))
  {
    match r {
      case WantTask(sender) => assert "TASK_REQ" + ['|'] + sender == "TASK_REQ|" + sender;
      case Finished(sender, tid) =>
        assert "TASK_FIN" + ['|'] + (sender + ['|'] + tid) == "TASK_FIN|" + sender + "|" + tid;
      case Beat(sender) => assert "HEARTBEAT" + ['|'] + sender == "HEARTBEAT|" + sender;
    }
  }

  lemma JoinTwo(a: string, b: string)
    ensures Join([a, b], SEP) == a + [SEP] + b
  {
    assert [a, b][1..] == [b];
  }

  lemma JoinThree(a: string, b: string, c: string)
    ensures Join([a, b, c], SEP) == a + [SEP] + b + [SEP] + c
  {
    assert [a, b, c][1..] == [b, c];
    JoinTwo(b, c);
  }

  /** What the type of a message says about its text. */
  lemma TypeIsHead(text: string)
    requires Create(text).Ok?
    ensures TypeOf(Create(text).value) == Split(text, SEP)[0] && TypeName(Split(text, SEP)[0])
    ensures FromFields(text, Split(text, SEP)) == Create(text) && Join(Split(text, SEP), SEP) == text
  {
    JoinOfSplit(text, SEP);
    if Split(text, SEP)[0] == TASK_ASSIGN {
      AssignOnly(text, Split(text, SEP));
      AssignType(text);
    } else {
      HeadIsType(text, Split(text, SEP));
      TypeOfHeader(Create(text).value);
    }
  }

  lemma AssignOnly(text: string, f: seq<string>)
    requires |f| >= 1 && f[0] == TASK_ASSIGN
    ensures FromFields(text, f) == AssignOfText(text)
  {
    TypeNames();
  }

  /** A text of two fields with such a head is a message with the second field as its body. */
  lemma TwoFields(text: string, f: seq<string>, head: string)
    requires |f| >= 1 && f[0] == head && (head == TASK_REQUEST || head == HEARTBEAT || head == WAIT_COMMAND)
    ensures FromFields(text, f).Ok? <==> |f| == 2 && f[1] != ""
    ensures FromFields(text, f).Ok? ==> FromFields(text, f).value == Message(head, f[1])
  {
    TypeNames();
    if |f| > 1 {
      assert f == [head] + f[1..];
      FieldsWithBody(text, head, f[1..]);
    }
  }

  lemma NameRead(text: string, head: string, sender: string)
    requires Create(text) == Ok(Message(head, sender)) && Split(text, SEP)[0] == head
    requires head == TASK_REQUEST || head == HEARTBEAT || head == WAIT_COMMAND
    ensures text == head + [SEP] + sender && sender != "" && Plain(sender)
  {
    var f := Split(text, SEP);
    TypeIsHead(text);
    TwoFields(text, f, head);
    assert f == [head, sender];
    assert sender in f;
    JoinTwo(head, sender);
  }

  lemma FinishedRead(text: string, sender: string, tid: string)
    requires DecodeRequest(text) == Ok(Finished(sender, tid))
    ensures text == TASK_FINISHED + [SEP] + sender + [SEP] + tid
    ensures sender != "" && Plain(sender) && tid != "" && Plain(tid)
  {
    var f := Split(text, SEP);
    TypeIsHead(text);
    TypeNames();
    FinishedFields(text, f);
    assert f == [f[0], f[1], f[2]];
    FinishedBody(f[1], f[2]);
    JoinThree(f[0], f[1], f[2]);
    assert f[1] in f && f[2] in f;
  }

  lemma OtherRead(text: string, r: Request)
    requires DecodeRequest(text) == Ok(r) && !r.Finished?
    ensures text == (if r.WantTask? then TASK_REQUEST else HEARTBEAT) + [SEP] + r.sender && r.sender != "" && Plain(r.sender)
  {
    var head := if r.WantTask? then TASK_REQUEST else HEARTBEAT;
    var f := Split(text, SEP);
    TypeIsHead(text);
    TypeNames();
    TwoFields(text, f, head);
    NameRead(text, head, r.sender);
  }

  lemma ReadIsPrinted(text: string, r: Request)
    requires DecodeRequest(text) == Ok(r)
    ensures GoodNames(r) && text == TextOfRequest(r)
  {
    if r.Finished? { FinishedRead(text, r.sender, r.tid); } else { OtherRead(text, r); }
    RequestText(r);
  }

  lemma RequestText(r: Request)
    ensures r.Finished? ==> TextOfRequest(r) == TASK_FINISHED + [SEP] + r.sender + [SEP] + r.tid
    ensures r.WantTask? ==> TextOfRequest(r) == TASK_REQUEST + [SEP] + r.sender
    ensures r.Beat? ==> TextOfRequest(r) == HEARTBEAT + [SEP] + r.sender
  {
  }

  lemma PrintedIsRead(r: Request)
    requires GoodNames(r)
    ensures DecodeRequest(TextOfRequest(r)) == Ok(r)
  {
    RequestPrints(r);
    RequestRoundTrip(r);
  }

  /** The master reads exactly the printed requests with separator-free names, and each as what it is:
      for every text. */
  lemma RequestReadIff(text: string, r: Request)
    ensures DecodeRequest(text) == Ok(r) <==> GoodNames(r) && text == TextOfRequest(r)
  {
    if DecodeRequest(text) == Ok(r) { ReadIsPrinted(text, r); }
    if GoodNames(r) { PrintedIsRead(r); }
  }

  // ---- replies

  lemma ReplyPrints(n: nat)
    ensures EncodeReply(Acknowledged) == Ok("ACK") && EncodeReply(Quit) == Ok("EXIT_CMD")
    ensures EncodeReply(WaitFor(n)) == Ok("WAIT_CMD|" + Str(n))
  {
    assert "WAIT_CMD" + ['|'] + Str(n) == "WAIT_CMD|" + Str(n);
  }

  /** An assignment is printed as header and arguments; a class outside the task package or a missing tid
      fails. */
  lemma AssignPrints(task: Task)
    ensures EncodeReply(Assign(task)) ==
      if !Contains(task.package, "task.") || task.tid == "" then Raised
      else
        var header := "TASK_ASS|" + task.package + "|" + task.class_ + "|" + task.tid;
        Ok(if task.args == [] || task.args == [""] then header else header + "|" + Join(task.args, '|'))
  {
    var header := "TASK_ASS|" + task.package + "|" + task.class_ + "|" + task.tid;
    assert HeaderOf(task.package, task.class_, task.tid) == header;
    if task.args != [] { JoinEmpty(task.args); }
  }

  lemma NoFields(text: string, f: seq<string>, head: string)
    requires |f| >= 1 && f[0] == head && (head == ACKNOWLEDGE || head == EXIT_COMMAND)
    ensures FromFields(text, f) == if |f| == 1 then Ok(Message(head, "")) else Raised
  {
    TypeNames();
  }

  lemma PlainTextRead(reg: Registry, text: string, r: Reply)
    requires DecodeReply(reg, text) == Ok(r) && (r.Acknowledged? || r.Quit?)
    ensures text == if r.Quit? then "EXIT_CMD" else "ACK"
  {
    var f := Split(text, SEP);
    var head := if r.Quit? then EXIT_COMMAND else ACKNOWLEDGE;
    TypeIsHead(text);
    TypeNames();
    NoFields(text, f, head);
    assert f == [head];
  }

  /** A controller takes exactly the text EXIT_CMD for the exit command and exactly ACK for an
      acknowledgement. */
  lemma PlainReplyReadIff(reg: Registry, text: string)
    ensures DecodeReply(reg, text) == Ok(Quit) <==> text == "EXIT_CMD"
    ensures DecodeReply(reg, text) == Ok(Acknowledged) <==> text == "ACK"
  {
    PlainReplyRoundTrip(reg, Quit);
    PlainReplyRoundTrip(reg, Acknowledged);
    if DecodeReply(reg, text) == Ok(Quit) { PlainTextRead(reg, text, Quit); }
    if DecodeReply(reg, text) == Ok(Acknowledged) { PlainTextRead(reg, text, Acknowledged); }
  }

  ghost predicate WaitText(text: string, body: string, n: nat) {
    text == "WAIT_CMD|" + body && body != "" && '|' !in body && Int(body) == Ok(n)
  }

  lemma WaitRead(reg: Registry, text: string, n: nat) returns (body: string)
    requires DecodeReply(reg, text) == Ok(WaitFor(n))
    ensures WaitText(text, body, n)
  {
    var f := Split(text, SEP);
    TypeIsHead(text);
    WaitTyped(reg, text, n);
    TwoFields(text, f, WAIT_COMMAND);
    body := f[1];
    NameRead(text, WAIT_COMMAND, body);
  }

  lemma WaitTyped(reg: Registry, text: string, n: nat)
    requires DecodeReply(reg, text) == Ok(WaitFor(n))
    ensures Create(text).Ok? && TypeOf(Create(text).value) == WAIT_COMMAND && Int(Create(text).value.body) == Ok(n)
  {
  }

  lemma WaitWritten(reg: Registry, text: string, body: string, n: nat)
    requires WaitText(text, body, n)
    ensures DecodeReply(reg, text) == Ok(WaitFor(n))
  {
    assert text == WAIT_COMMAND + [SEP] + body;
    CreateBody(WAIT_COMMAND, body);
    SplitPlain(body, SEP);
    FieldsWithBody(text, WAIT_COMMAND, [body]);
    TypeOfHeader(Message(WAIT_COMMAND, body));
    TypeNames();
  }

  /** A wait command is WAIT_CMD and one field that int() reads as a natural number. */
  lemma WaitReadIff(reg: Registry, text: string, n: nat)
    ensures DecodeReply(reg, text) == Ok(WaitFor(n)) <==> exists body :: WaitText(text, body, n)
  {
    if DecodeReply(reg, text) == Ok(WaitFor(n)) { var body := WaitRead(reg, text, n); }
    if body :| WaitText(text, body, n) { WaitWritten(reg, text, body, n); }
  }

  /** A controller takes a text for an assignment exactly if it has the head TASK_ASS and three more
      fields, which are module, class and tid, and the class can be imported and takes as many arguments
      as there are further fields, at most 15; a single empty one counts for none. */
  lemma AssignReadIff(reg: Registry, text: string, task: Task)
    ensures DecodeReply(reg, text) == Ok(Assign(task)) <==>
      var f := Split(text, '|');
      && |f| >= 4 && f[0] == "TASK_ASS"
      && task == Task(f[1], f[2], f[3], if f[4..] == [""] then [] else f[4..])
      && (f[1], f[2]) in reg && reg[(f[1], f[2])] == |task.args| && |task.args| <= 15
  {
    var f := Split(text, SEP);
    if text != "" && f[0] == TASK_ASSIGN && |f| >= 4 {
      AssignRead(reg, text);
    } else if DecodeReply(reg, text) == Ok(Assign(task)) {
      NotAssign(reg, text, task);
    }
  }

  lemma NotAssign(reg: Registry, text: string, task: Task)
    requires DecodeReply(reg, text) == Ok(Assign(task))
    ensures text != "" && Split(text, SEP)[0] == TASK_ASSIGN && |Split(text, SEP)| >= 4
  {
    TypeIsHead(text);
    TypeNames();
    AssignOnly(text, Split(text, SEP));
  }

  /** A task of fifteen arguments arrives, and of sixteen it does not. */
  lemma FifteenArguments(reg: Registry, task: Task)
    requires Registered(reg, task) && Contains(task.package, "task.") && SafeName(task.tid)
    requires |task.args| >= 2 && forall a :: a in task.args ==> Plain(a)
    ensures CarryReply(reg, Assign(task)) == if |task.args| <= 15 then Ok(Assign(task)) else Raised
  {
    TaskFate.TaskFate(reg, task);
  }

  // ---- the flags of a migration task

  /** s is the word w, in letters of any case. */
  ghost predicate Spelled(s: string, w: string) {
    |s| == |w| && forall i :: 0 <= i < |s| ==> s[i] == w[i] || ('a' <= w[i] <= 'z' && s[i] as int == w[i] as int - 32)
  }

  ghost predicate LowerCase(w: string) { forall i :: 0 <= i < |w| ==> !('A' <= w[i] <= 'Z') }

  lemma {:induction false} LowerIs(s: string, w: string)
    requires LowerCase(w)
    ensures Lower(s) == w <==> Spelled(s, w)
  {
    if s != "" && w != "" {
      LowerIs(s[1..], w[1..]);
      assert w == [w[0]] + w[1..] && s == [s[0]] + s[1..];
      LetterIs(s[0], w[0]);
      if Spelled(s, w) {
        forall i | 0 <= i < |s| - 1
          ensures s[1..][i] == w[1..][i] || ('a' <= w[1..][i] <= 'z' && s[1..][i] as int == w[1..][i] as int - 32)
        {
          assert s[1..][i] == s[i + 1] && w[1..][i] == w[i + 1];
        }
      }
    }
  }

  lemma LetterIs(c: char, d: char)
    requires !('A' <= d <= 'Z')
    ensures LowerChar(c) == d <==> c == d || ('a' <= d <= 'z' && c as int == d as int - 32)
  {
  }

  ghost predicate SaysYes(s: string) {
    Spelled(s, "y") || Spelled(s, "yes") || Spelled(s, "t") || Spelled(s, "true") || Spelled(s, "on") || Spelled(s, "1")
  }

  ghost predicate SaysNo(s: string) {
    Spelled(s, "n") || Spelled(s, "no") || Spelled(s, "f") || Spelled(s, "false") || Spelled(s, "off") || Spelled(s, "0")
  }

  /** A flag is set by y, yes, t, true, on and 1, cleared by n, no, f, false, off and 0, in any case, and
      refused otherwise. */
  lemma FlagWords(s: string)
    ensures StrToBool(s) == Ok(true) <==> SaysYes(s)
    ensures StrToBool(s) == Ok(false) <==> SaysNo(s)
  {
    LowerIs(s, "y"); LowerIs(s, "yes"); LowerIs(s, "t"); LowerIs(s, "true"); LowerIs(s, "on"); LowerIs(s, "1");
    LowerIs(s, "n"); LowerIs(s, "no"); LowerIs(s, "f"); LowerIs(s, "false"); LowerIs(s, "off"); LowerIs(s, "0");
    Disjoint(Lower(s));
  }

  lemma Disjoint(low: string)
    ensures low in ["y", "yes", "t", "true", "on", "1"] ==> low !in ["n", "no", "f", "false", "off", "0"]
  {
    assert "on"[0] == 'o' && "off"[1] == 'f' && "on"[1] == 'n';
  }

  // ---- numbers

  /** str(n) has no leading zero. */
  lemma {:induction false} NoLeadingZero(n: nat)
    ensures Str(n)[0] == '0' <==> n == 0
  {
    if n >= 10 { NoLeadingZero(n / 10); }
  }

  lemma Trims(front: string, number: string, back: string)
    requires (forall c :: c in front ==> IsBlank(c)) && (forall c :: c in back ==> IsBlank(c))
    requires number != "" && !IsBlank(number[0]) && !IsBlank(number[|number| - 1])
    ensures SkipBack(SkipFront(front + number + back)) == number
  {
    assert front + number + back == front + (number + back);
    SkipsFront(front, number + back);
    SkipsBack(number, back);
  }

  lemma SignedNumber(sign: string, n: nat)
    requires sign == "" || sign == "+" || sign == "-"
    ensures var number := sign + Str(n);
      && number != "" && !IsBlank(number[0]) && !IsBlank(number[|number| - 1])
      && Unsigned(number) == Str(n) && (number[0] == '-' <==> sign == "-")
  {
    var number := sign + Str(n);
    assert IsDigit(Str(n)[0]) && IsDigit(Str(n)[|Str(n)| - 1]);
    assert number[|number| - 1] == Str(n)[|Str(n)| - 1];
    if sign == "" { assert number == Str(n); } else { assert number[1..] == Str(n); }
  }

  /** Between blanks, int() reads a number with or without a sign. */
  lemma IntReads(front: string, sign: string, n: nat, back: string)
    requires (forall c :: c in front ==> IsBlank(c)) && (forall c :: c in back ==> IsBlank(c))
    requires sign == "" || sign == "+" || sign == "-"
    ensures Int(front + (sign + Str(n)) + back) == Ok(if sign == "-" then 0 - n else n)
  {
    SignedNumber(sign, n);
    Trims(front, sign + Str(n), back);
    DigitsOfStr(n);
  }

  lemma {:induction false} SkipsFront(front: string, rest: string)
    requires (forall c :: c in front ==> IsBlank(c)) && rest != "" && !IsBlank(rest[0])
    ensures SkipFront(front + rest) == rest
  {
    if front == "" {
      assert front + rest == rest;
    } else {
      SkipsFront(front[1..], rest);
      assert (front + rest)[1..] == front[1..] + rest;
    }
  }

  lemma {:induction false} SkipsBack(rest: string, back: string)
    requires (forall c :: c in back ==> IsBlank(c)) && rest != "" && !IsBlank(rest[|rest| - 1])
    ensures SkipBack(rest + back) == rest
  {
    if back == "" {
      assert rest + back == rest;
    } else {
      SkipsBack(rest, back[..|back| - 1]);
      assert (rest + back)[..|rest + back| - 1] == rest + back[..|back| - 1];
    }
  }

  /** Digits, with underscores only singly and between them. */
  ghost predicate WellWritten(s: string) {
    && s != "" && IsDigit(s[0]) && IsDigit(s[|s| - 1])
    && (forall i :: 0 <= i < |s| ==> IsDigit(s[i]) || s[i] == '_')
    && (forall i :: 0 < i < |s| ==> !(s[i - 1] == '_' && s[i] == '_'))
  }

  lemma {:induction false} DigitsIff(s: string)
    ensures Digits(s).Ok? <==> WellWritten(s)
    decreases |s|
  {
    if s != "" && IsDigit(s[|s| - 1]) && |s| > 1 {
      var front := s[..|s| - 1];
      var less := if front[|front| - 1] == '_' then front[..|front| - 1] else front;
      DigitsIff(less);
      ShorterWritten(s, front, less);
    }
  }

  lemma ShorterWritten(s: string, front: string, less: string)
    requires |s| > 1 && IsDigit(s[|s| - 1]) && front == s[..|s| - 1]
    requires less == if front[|front| - 1] == '_' then front[..|front| - 1] else front
    ensures WellWritten(s) <==> WellWritten(less)
  {
    assert less == s[..|less|];
    assert forall i :: 0 <= i < |less| ==> less[i] == s[i];
    if WellWritten(less) {
      forall i | 0 <= i < |s| ensures IsDigit(s[i]) || s[i] == '_' {
        if i < |less| { assert s[i] == less[i]; }
      }
      forall i | 0 < i < |s| ensures !(s[i - 1] == '_' && s[i] == '_') {
        if i < |less| { assert s[i - 1] == less[i - 1] && s[i] == less[i]; }
      }
    }
  }
}
