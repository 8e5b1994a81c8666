/** The Ruby values klaxon passes around: option and group hash entries,
    regular expressions, exceptions, and the outcome of an evaluation that
    may raise. */
module RubyValues {
  import opened Text

  datatype Option<+T> = None | Some(value: T)

  /** A Ruby `Regexp`: its source text and its `m`, `i` and `x` options
      (`/critical/i` and `/critical/` are different patterns). */
  datatype Regex = Regex(source: string, multiline: bool, ignoreCase: bool, extended: bool)

  /** The option letters of `re` that are on (`on`) or off, in Ruby's order `mix`. */
  function OptionLetters(re: Regex, on: bool): (letters: string)
    ensures |letters| <= 3
  {
    (if re.multiline == on then "m" else "")
    + (if re.ignoreCase == on then "i" else "")
    + (if re.extended == on then "x" else "")
  }

  /** Each option's letter is listed exactly when the option has the state asked for. */
  lemma OptionLettersListed(re: Regex, on: bool)
    ensures 'm' in OptionLetters(re, on) <==> re.multiline == on
    ensures 'i' in OptionLetters(re, on) <==> re.ignoreCase == on
    ensures 'x' in OptionLetters(re, on) <==> re.extended == on
  {
  }

  /** A Ruby object of one of the kinds that appear in option hashes and
      recipient groups. Hash keys are symbols and are modelled by their name. */
  datatype Value =
    | Nil
    | Bool(b: bool)
    | Str(s: string)
    | Sym(name: string)
    | Pattern(re: Regex)
    | Arr(items: seq<Value>)

  /** Ruby truthiness: only `nil` and `false` are falsy. */
  predicate Truthy(v: Value)
  {
    v != Nil && v != Bool(false)
  }

  /** Ruby's `x || fallback`. */
  function Or(x: Value, fallback: Value): Value
  {
    if Truthy(x) then x else fallback
  }

  /** `Hash#[]` on a hash with symbol keys: a missing key reads as `nil`. */
  function Get(h: map<string, Value>, key: string): Value
  {
    if key in h then h[key] else Nil
  }

  /** `Object#to_s` (Ruby 1.9 and later, where `Array#to_s` is `inspect`). */
  function ToS(v: Value): (s: string)
    ensures v.Str? ==> s == v.s
    ensures v.Sym? ==> s == v.name
    ensures s == "" <==> v == Nil || v == Str("") || v == Sym("")
  {
    match v
    case Nil => ""
    case Bool(b) => if b then "true" else "false"
    case Str(s) => s
    case Sym(n) => n
    case Pattern(re) => RegexToS(re)
    case Arr(_) => Inspect(v)
  }

  /** `Regexp#to_s`: the options that are on, then those that are off, then
      the source, as an embeddable group. */
  function RegexToS(re: Regex): string
  {
    var off := OptionLetters(re, false);
    "(?" + OptionLetters(re, true) + (if off == "" then "" else "-" + off) + ":" + re.source + ")"
  }

  /** `Regexp#to_s` lists the options that are on, then those that are off,
      so a case-insensitive pattern reads differently from a plain one. */
  lemma PatternToS(source: string)
    ensures RegexToS(Regex(source, false, false, false)) == "(?-mix:" + source + ")"
    ensures RegexToS(Regex(source, false, true, false)) == "(?i-mx:" + source + ")"
    ensures RegexToS(Regex(source, true, true, true)) == "(?mix:" + source + ")"
  {
  }

  /** `Object#inspect`. String escaping and symbol quoting are not modelled. */
  function Inspect(v: Value): string
  {
    match v
    case Nil => "nil"
    case Bool(b) => if b then "true" else "false"
    case Str(s) => "\"" + s + "\""
    case Sym(n) => ":" + n
    case Pattern(re) => "/" + re.source + "/" + OptionLetters(re, true)
    case Arr(items) =>
      "[" + Join(seq(|items|, i requires 0 <= i < |items| => Inspect(items[i])), ", ") + "]"
  }

  /** A Ruby exception object: its class, its message (what `to_s` returns),
      its backtrace (`nil` until the exception has been raised) and whether
      it is a `StandardError`, the class a bare `rescue => e` catches. */
  datatype Exception = Exception(
    className: string,
    message: string,
    backtrace: Option<seq<string>>,
    standardError: bool)

  /** The result of evaluating Ruby code: a value, or a raised exception. */
  datatype Outcome<+T> = Ok(value: T) | Raised(error: Exception)

  /** An exception raised while running the library's own code, such as
      `NoMethodError`, `TypeError` or `ActiveRecord::RecordNotFound`; its
      stack frames are not modelled. */
  function LibraryRaised(className: string, message: string): Exception
  {
    Exception(className, message, Some([]), true)
  }
}
