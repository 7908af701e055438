/** The output streams a redirection names, and the digit or star the printer writes for each. */
module Streams {
  import opened Wrappers

  datatype RedirectionStream = All | Output | Error | Warning | Verbose | Debug | Information

  /** `GetStreamIndicator`: the character that names a stream in a redirection. */
  function StreamIndicator(s: RedirectionStream): char {
    match s
    case All => '*'
    case Debug => '5'
    case Error => '2'
    case Information => '6'
    case Output => '1'
    case Verbose => '4'
    case Warning => '3'
  }

  /** The stream a redirection's indicator character names, as PowerShell reads it. */
  function StreamOfIndicator(c: char): Option<RedirectionStream> {
    match c
    case '*' => Some(All)
    case '1' => Some(Output)
    case '2' => Some(Error)
    case '3' => Some(Warning)
    case '4' => Some(Verbose)
    case '5' => Some(Debug)
    case '6' => Some(Information)
    case _ => None
  }

  /** Every indicator reads back as its stream, and every readable character is some stream's indicator. */
  lemma IndicatorRoundTrip(s: RedirectionStream, c: char)
    ensures StreamOfIndicator(StreamIndicator(s)) == Some(s)
    ensures StreamOfIndicator(c) == Some(s) ==> StreamIndicator(s) == c
  {
  }

  /** The indicator map is injective and lands in `*` and the digits `1` to `6`. */
  lemma IndicatorInjective(s: RedirectionStream, t: RedirectionStream)
    ensures StreamIndicator(s) == StreamIndicator(t) ==> s == t
    ensures StreamIndicator(s) == '*' || '1' <= StreamIndicator(s) <= '6'
  {
    IndicatorRoundTrip(s, StreamIndicator(t));
  }
}
