/** `Klaxon::Notifiers::EmailNotifier` (lib/klaxon/notifiers/email_notifier.rb):
    the message it hands to the mail transport (sender, recipient line,
    subject and body), and its registration under `:email`. The delivery
    itself is not modelled. */
module EmailNotifier {
  import opened RubyValues
  import opened Text
  import opened Alerts
  import Notifiers
  import Klaxon

  /** The class registered as the `:email` notifier. */
  const EmailNotifierClass: Notifiers.Notifier := Notifiers.Notifier("Klaxon::Notifiers::EmailNotifier")

  /** A composed e-mail: the `from`, `to`, `subject` and `body` given to `Mail.deliver`. */
  datatype Message = Message(from: Option<string>, to: string, subject: string, body: string)

  /** `"#{x}"` of an optional string: nil interpolates as the empty string. */
  function Interpolated(x: Option<string>): string
  {
    if x.Some? then x.value else ""
  }

  /** `Klaxon.config.from_address || recipients.first`. */
  function Sender(fromAddress: Option<string>, recipients: seq<string>): (sender: Option<string>)
    ensures fromAddress.Some? ==> sender == fromAddress
    ensures fromAddress.None? && |recipients| > 0 ==> sender == Some(recipients[0])
    ensures fromAddress.None? && |recipients| == 0 ==> sender == None
  {
    if fromAddress.Some? then fromAddress
    else if |recipients| > 0 then Some(recipients[0])
    else None
  }

  /** `recipients.join(", ")`. */
  function ToField(recipients: seq<string>): (to: string)
    ensures recipients == [] ==> to == ""
    ensures |recipients| == 1 ==> to == recipients[0]
  {
    Join(recipients, ", ")
  }

  /** `"[Klaxon] [#{alert.severity}] #{alert.message} (#{alert.category})"`. */
  function Subject(alert: Alert): (subject: string)
    ensures |subject| > |SubjectPrefix| && subject[..|SubjectPrefix|] == SubjectPrefix
    ensures subject[|subject| - 1] == ')'
  {
    "[Klaxon] [" + alert.fields.severity + "] " + alert.fields.message + " (" + alert.fields.category + ")"
  }

  /** The body text of lib/klaxon/notifiers/email_notifier.rb:7-15, written
      line by line: a blank line, the announcement, two blank lines, one line
      per field, and the indentation that closes the string literal. */
  function Body(alert: Alert): (body: string)
    ensures |body| > 9 && body[0] == '\n'
    ensures body[|body| - 9..] == "\n        "
  {
    "\n" + "Alert raised by Klaxon on your site:" + "\n" + "\n" + "\n"
    + "Message: " + alert.fields.message + "\n"
    + "Category: " + alert.fields.category + "\n"
    + "Severity: " + alert.fields.severity + "\n"
    + "Exception: " + Interpolated(alert.fields.exception) + "\n"
    + "Backtrace: " + Interpolated(alert.fields.backtrace) + "\n"
    + "        "
  }

  /** The message `EmailNotifier.notify(recipients, alert)` composes. */
  function Compose(fromAddress: Option<string>, recipients: seq<string>, alert: Alert): (message: Message)
    ensures message.to == ToField(recipients) && message.subject == Subject(alert) && message.body == Body(alert)
    ensures message.from.Some? <==> fromAddress.Some? || |recipients| > 0
    ensures fromAddress.None? && |recipients| > 0 ==> message.from == Some(recipients[0])
  {
    Message(Sender(fromAddress, recipients), ToField(recipients), Subject(alert), Body(alert))
  }

  /** `EmailNotifier.notify(recipients, alert)`: reads the sender override
      through `Klaxon.config`, which creates the configuration if there is
      none, and composes the message handed to `Mail.deliver`. */
  method Notify(klaxon: Klaxon.State, recipients: seq<string>, alert: Alert) returns (message: Message)
    modifies klaxon`config
    ensures klaxon.config != null
    ensures old(klaxon.config) != null ==> klaxon.config == old(klaxon.config)
    ensures message == Compose(klaxon.config.fromAddress, recipients, alert)
    ensures old(klaxon.config) == null ==> message.from == Sender(None, recipients)
  {
    var config := klaxon.GetConfig();
    message := Compose(config.fromAddress, recipients, alert);
  }

  /** Loading the file runs `register! :email, EmailNotifier`. */
  method Load(registry: Notifiers.Registry)
    modifies registry
    ensures registry.notifiers == Some(Notifiers.Store(old(registry.Table()), Sym("email"), EmailNotifierClass))
  {
    var _ := registry.Register(Sym("email"), EmailNotifierClass);
  }

  /** After loading, the default notifier key finds the e-mail notifier. */
  method LoadScenario() returns (found: Option<Notifiers.Notifier>)
    ensures found == Some(EmailNotifierClass)
  {
    var registry := new Notifiers.Registry();
    Load(registry);
    found := registry.Lookup(Notifiers.DefaultNotifier());
  }

  // ---------------------------------------------------------------------
  // Reading the composed message back

  /** `s` without one leading space, if it has one. */
  function DropLeadingSpace(s: string): string
  {
    if |s| > 0 && s[0] == ' ' then s[1..] else s
  }

  /** The addresses of a `to` line written as `a, b, c`. */
  function Addresses(to: string): seq<string>
  {
    var pieces := Split(to, ',');
    [pieces[0]] + seq(|pieces| - 1, i requires 0 <= i < |pieces| - 1 => DropLeadingSpace(pieces[i + 1]))
  }

  /** The `to` line lists every recipient once per occurrence, in the given
      order, so it reads back as the recipient list (addresses hold no comma). */
  lemma ToReadsBack(recipients: seq<string>)
    requires |recipients| >= 1
    requires forall i :: 0 <= i < |recipients| ==> ',' !in recipients[i]
    ensures Addresses(ToField(recipients)) == recipients
  {
    assert ", " == [','] + " ";
    assert ToField(recipients) == Join(recipients, [','] + " ");
    SplitJoin(recipients, ',', " ");
    var pieces := Split(ToField(recipients), ',');
    assert |pieces| == |recipients|;
    var read := Addresses(ToField(recipients));
    assert |read| == |recipients|;
    forall i | 0 <= i < |recipients|
      ensures read[i] == recipients[i]
    {
      if i > 0 {
        assert read[i] == DropLeadingSpace(pieces[i]);
        assert pieces[i] == " " + recipients[i];
        assert (" " + recipients[i])[1..] == recipients[i];
      }
    }
  }

  /** With no sender override and no recipients there is no sender at all:
      the fallback does not guarantee a From header. */
  lemma NoSenderWithoutRecipients(alert: Alert)
    ensures Compose(None, [], alert).from == None
    ensures Compose(None, [], alert).to == ""
  {
  }

  /** The prefix of every subject line. */
  const SubjectPrefix: string := "[Klaxon] ["

  /** The subject's fields as a reader would take them apart: the severity
      up to the first `]` after the prefix, the category in the final
      parentheses, the message in between. */
  function ParseSubject(subject: string): Option<(string, string, string)>
  {
    if |subject| < |SubjectPrefix| || subject[..|SubjectPrefix|] != SubjectPrefix then None
    else ParseSeverity(subject[|SubjectPrefix|..])
  }

  /** The part after the prefix: severity, `]`, then message and category. */
  function ParseSeverity(rest: string): Option<(string, string, string)>
  {
    if ']' !in rest then None
    else
      var i := IndexOf(rest, ']');
      var tail := rest[i + 1..];
      if |tail| < 2 || tail[0] != ' ' || tail[|tail| - 1] != ')' then None
      else ParseMessage(rest[..i], tail[1..|tail| - 1])
  }

  /** The part between `] ` and the final `)`: message, ` (`, category. */
  function ParseMessage(severity: string, inner: string): Option<(string, string, string)>
  {
    if '(' !in inner then None
    else
      var j := LastIndexOf(inner, '(');
      if j == 0 || inner[j - 1] != ' ' then None
      else Some((severity, inner[..j - 1], inner[j + 1..]))
  }

  lemma ParseMessageOf(severity: string, message: string, category: string)
    requires '(' !in category
    ensures ParseMessage(severity, message + " (" + category) == Some((severity, message, category))
  {
    var inner := (message + " ") + ['('] + category;
    assert message + " (" + category == inner;
    LastIndexBefore(message + " ", category, '(');
    assert inner[|message|] == ' ';
    assert inner[..|message|] == message;
    assert inner[|message| + 2..] == category;
  }

  /** A severity free of `]` is cut off at the first `]`, and what follows
      the `] ` up to the final `)` goes on to `ParseMessage`. */
  lemma ParseSeverityParts(severity: string, inner: string)
    requires ']' !in severity
    ensures ParseSeverity(severity + "] " + inner + ")") == ParseMessage(severity, inner)
  {
    var after := " " + inner + ")";
    var rest := severity + [']'] + after;
    assert severity + "] " + inner + ")" == rest;
    FirstIndexAfter(severity, after, ']');
    assert rest[..|severity|] == severity;
    assert rest[|severity| + 1..] == after;
    assert after[1..|after| - 1] == inner;
  }

  lemma ParseSeverityOf(severity: string, message: string, category: string)
    requires ']' !in severity && '(' !in category
    ensures ParseSeverity(severity + "] " + message + " (" + category + ")") == Some((severity, message, category))
  {
    var inner := message + " (" + category;
    assert severity + "] " + message + " (" + category + ")" == severity + "] " + inner + ")";
    ParseSeverityParts(severity, inner);
    ParseMessageOf(severity, message, category);
  }

  /** The subject names severity, message and category, in that order, and
      they read back exactly, provided the severity holds no `]` and the
      category no `(`. */
  lemma SubjectReadsBack(alert: Alert)
    requires ']' !in alert.fields.severity
    requires '(' !in alert.fields.category
    ensures ParseSubject(Subject(alert)) ==
              Some((alert.fields.severity, alert.fields.message, alert.fields.category))
  {
    var sev, msg, cat := alert.fields.severity, alert.fields.message, alert.fields.category;
    var rest := sev + "] " + msg + " (" + cat + ")";
    assert Subject(alert) == SubjectPrefix + rest;
    assert (SubjectPrefix + rest)[..|SubjectPrefix|] == SubjectPrefix;
    assert (SubjectPrefix + rest)[|SubjectPrefix|..] == rest;
    ParseSeverityOf(sev, msg, cat);
  }

  /** The fixed lines of the body and the field lines, up to the backtrace. */
  function HeadLines(alert: Alert): seq<string>
  {
    [ "", "Alert raised by Klaxon on your site:", "", "",
      "Message: " + alert.fields.message,
      "Category: " + alert.fields.category,
      "Severity: " + alert.fields.severity,
      "Exception: " + Interpolated(alert.fields.exception) ]
  }

  /** Each line followed by `c`. */
  function Terminated(lines: seq<string>, c: char): string
  {
    if lines == [] then "" else Terminated(lines[..|lines| - 1], c) + lines[|lines| - 1] + [c]
  }

  lemma {:induction false} SplitTerminated(lines: seq<string>, tail: string, c: char)
    requires forall i :: 0 <= i < |lines| ==> c !in lines[i]
    ensures Split(Terminated(lines, c) + tail, c) == lines + Split(tail, c)
  {
    if lines == [] {
      assert Terminated(lines, c) + tail == tail;
    } else {
      var init, last := lines[..|lines| - 1], lines[|lines| - 1];
      var rest := last + [c] + tail;
      assert Terminated(lines, c) + tail == Terminated(init, c) + rest;
      assert Split(rest, c) == [last] + Split(tail, c) by {
        SplitAppend(last, tail, c);
        SplitWithout(last, c);
      }
      assert Split(Terminated(init, c) + rest, c) == init + Split(rest, c) by {
        SplitTerminated(init, rest, c);
      }
      calc {
        Split(Terminated(lines, c) + tail, c);
        Split(Terminated(init, c) + rest, c);
        init + ([last] + Split(tail, c));
        { assert lines == init + [last]; }
        lines + Split(tail, c);
      }
    }
  }

  /** `Terminated` of a longer prefix adds one line and its terminator. */
  lemma TerminatedStep(lines: seq<string>, k: nat, c: char)
    requires k < |lines|
    ensures Terminated(lines[..k + 1], c) == Terminated(lines[..k], c) + lines[k] + [c]
  {
    assert lines[..k + 1][..k] == lines[..k];
  }

  /** The heading and field lines, each followed by a line break, for
      field values `m`, `c`, `s` and `e`. */
  lemma TerminatedHead(m: string, c: string, s: string, e: string)
    ensures Terminated(["", "Alert raised by Klaxon on your site:", "", "", "Message: " + m,
                        "Category: " + c, "Severity: " + s, "Exception: " + e], '\n')
            == "\n" + "Alert raised by Klaxon on your site:" + "\n" + "\n" + "\n"
               + "Message: " + m + "\n" + "Category: " + c + "\n" + "Severity: " + s + "\n"
               + "Exception: " + e + "\n"
  {
    var head := ["", "Alert raised by Klaxon on your site:", "", "", "Message: " + m,
                 "Category: " + c, "Severity: " + s, "Exception: " + e];
    assert head[..0] == [];
    TerminatedStep(head, 0, '\n');
    var t1 := Terminated(head[..1], '\n');
    assert t1 == "\n";
    TerminatedStep(head, 1, '\n');
    var t2 := Terminated(head[..2], '\n');
    assert t2 == t1 + "Alert raised by Klaxon on your site:" + "\n";
    TerminatedStep(head, 2, '\n');
    var t3 := Terminated(head[..3], '\n');
    assert t3 == t2 + "\n";
    TerminatedStep(head, 3, '\n');
    var t4 := Terminated(head[..4], '\n');
    assert t4 == t3 + "\n";
    TerminatedStep(head, 4, '\n');
    var t5 := Terminated(head[..5], '\n');
    assert t5 == t4 + "Message: " + m + "\n";
    TerminatedStep(head, 5, '\n');
    var t6 := Terminated(head[..6], '\n');
    assert t6 == t5 + "Category: " + c + "\n";
    TerminatedStep(head, 6, '\n');
    var t7 := Terminated(head[..7], '\n');
    assert t7 == t6 + "Severity: " + s + "\n";
    TerminatedStep(head, 7, '\n');
    assert head[..8] == head;
  }

  /** The body up to the backtrace is the heading and field lines, each
      followed by a line break. */
  lemma HeadLinesTerminated(alert: Alert)
    ensures Body(alert) == Terminated(HeadLines(alert), '\n')
                           + ("Backtrace: " + Interpolated(alert.fields.backtrace) + "\n" + "        ")
  {
    TerminatedHead(alert.fields.message, alert.fields.category, alert.fields.severity,
                   Interpolated(alert.fields.exception));
  }

  /** Lines each followed by `c`, then a last line that may hold `c` itself,
      then `c` and a final line without it, split back into those lines. */
  lemma SplitTerminatedThen(lines: seq<string>, last: string, final: string, c: char)
    requires forall i :: 0 <= i < |lines| ==> c !in lines[i]
    requires c !in final
    ensures Split(Terminated(lines, c) + (last + [c] + final), c) == lines + Split(last, c) + [final]
  {
    SplitTerminated(lines, last + [c] + final, c);
    SplitAppend(last, final, c);
    SplitWithout(final, c);
  }

  /** No heading or field line holds a line break when the field values
      hold none. */
  lemma HeadLinesUnbroken(alert: Alert)
    requires '\n' !in alert.fields.message && '\n' !in alert.fields.category
    requires '\n' !in alert.fields.severity && '\n' !in Interpolated(alert.fields.exception)
    ensures forall i :: 0 <= i < |HeadLines(alert)| ==> '\n' !in HeadLines(alert)[i]
  {
    var head := HeadLines(alert);
    forall i | 0 <= i < |head|
      ensures '\n' !in head[i]
    {
      if i == 4 {
        assert head[i] == "Message: " + alert.fields.message;
      } else if i == 5 {
        assert head[i] == "Category: " + alert.fields.category;
      } else if i == 6 {
        assert head[i] == "Severity: " + alert.fields.severity;
      } else if i == 7 {
        assert head[i] == "Exception: " + Interpolated(alert.fields.exception);
      }
    }
  }

  /** The body lists Message, Category, Severity, Exception and Backtrace, in
      that order, each on its own line with the alert's value, after the
      fixed heading; the backtrace may continue over several lines. This
      holds when the first four values hold no line break. */
  lemma BodyReadsBack(alert: Alert)
    requires '\n' !in alert.fields.message && '\n' !in alert.fields.category
    requires '\n' !in alert.fields.severity && '\n' !in Interpolated(alert.fields.exception)
    ensures Split(Body(alert), '\n') ==
              HeadLines(alert) + Split("Backtrace: " + Interpolated(alert.fields.backtrace), '\n') + ["        "]
  {
    var backtrace := "Backtrace: " + Interpolated(alert.fields.backtrace);
    HeadLinesTerminated(alert);
    assert Body(alert) == Terminated(HeadLines(alert), '\n') + (backtrace + ['\n'] + "        ");
    HeadLinesUnbroken(alert);
    SplitTerminatedThen(HeadLines(alert), backtrace, "        ", '\n');
  }
}
