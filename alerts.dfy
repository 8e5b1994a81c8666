/** The alert record and the field values `Klaxon.raise_alert` builds for it
    (lib/klaxon.rb:17-24). */
module Alerts {
  import opened RubyValues
  import opened Text

  /** The attributes `raise_alert` hands to `Alert.create`. */
  datatype Fields = Fields(
    exception: Option<string>,
    backtrace: Option<string>,
    severity: string,
    message: string,
    category: string)

  /** A stored alert: the id the store assigned, and its attributes. */
  datatype Alert = Alert(id: nat, fields: Fields)

  /** The options hash of `raise_alert`, keyed by symbol name. */
  type Options = map<string, Value>

  /** The attributes of the alert `raise_alert(exception, options)` creates.
      Severity, message and category are `options[key].to_s`; the `|| ""` and
      `|| "uncategorized"` fallbacks after them never apply, because `to_s`
      always returns a string. The exception and its backtrace are nil
      without an exception; with one they are its `to_s` and its frames
      joined by newlines, and an exception that was never raised has a nil
      backtrace, on which `join` raises `NoMethodError`. */
  function Build(exception: Option<Exception>, options: Options): (built: Outcome<Fields>)
    ensures built.Raised? <==> exception.Some? && exception.value.backtrace.None?
    ensures built.Raised? ==> built.error.className == "NoMethodError"
    ensures built.Ok? ==>
              && built.value.severity == ToS(Get(options, "severity"))
              && built.value.message == ToS(Get(options, "message"))
              && built.value.category == ToS(Get(options, "category"))
              && (built.value.exception.Some? <==> exception.Some?)
              && (built.value.backtrace.Some? <==> exception.Some?)
    ensures built.Ok? && exception.Some? ==> built.value.exception == Some(exception.value.message)
    ensures built.Ok? && exception.Some? ==>
              built.value.backtrace == Some(Join(exception.value.backtrace.value, "\n"))
    ensures built.Ok? && exception.Some? && exception.value.backtrace == Some([]) ==>
              built.value.backtrace == Some("")
  {
    if exception.Some? && exception.value.backtrace.None? then
      Raised(LibraryRaised("NoMethodError", "undefined method `join' for nil:NilClass"))
    else
      Ok(Fields(
        if exception.Some? then Some(exception.value.message) else None,
        if exception.Some? then Some(Join(exception.value.backtrace.value, "\n")) else None,
        ToS(Get(options, "severity")),
        ToS(Get(options, "message")),
        ToS(Get(options, "category"))))
  }

  /** Missing options give empty strings: in particular a missing category
      is stored as "", not as "uncategorized". */
  lemma MissingOptionsAreEmpty(exception: Option<Exception>, options: Options)
    requires "severity" !in options && "message" !in options && "category" !in options
    requires Build(exception, options).Ok?
    ensures Build(exception, options).value.severity == ""
    ensures Build(exception, options).value.message == ""
    ensures Build(exception, options).value.category == ""
  {
  }

  /** Symbol-valued options are stored by name, strings as they are. */
  lemma OptionsAreStringified(severity: string, message: string, category: string)
    ensures var built := Build(None, map["severity" := Sym(severity), "message" := Str(message),
                                          "category" := Sym(category)]);
            built == Ok(Fields(None, None, severity, message, category))
  {
  }

  /** The stored backtrace reads back, line by line, as the frames of the
      exception, as long as no frame holds a newline itself; the stored
      exception text is its message. */
  lemma BacktraceReadsBack(e: Exception, options: Options)
    requires e.backtrace.Some? && |e.backtrace.value| >= 1
    requires forall i :: 0 <= i < |e.backtrace.value| ==> '\n' !in e.backtrace.value[i]
    ensures Build(Some(e), options).Ok?
    ensures Build(Some(e), options).value.exception == Some(e.message)
    ensures Split(Build(Some(e), options).value.backtrace.value, '\n') == e.backtrace.value
  {
    SplitJoinExact(e.backtrace.value, '\n');
  }
}
