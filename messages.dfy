/** The message of the error the adapter raises when an interceptor returns a
    value that is not an OnPreAuthResult, and its inverse. */
module Messages {
  import opened Results

  const UnexpectedResultPrefix: string := "Unexpected result from OnPreAuth. Expected OnPreAuthResult, but given: "
  const UnexpectedResultSuffix: string := "."

  /** The message for a returned value whose string form is `shown` (the
      value as a JavaScript template literal renders it, e.g. "undefined"). */
  function UnexpectedResultMessage(shown: string): (m: string)
    ensures |m| == |UnexpectedResultPrefix| + |shown| + |UnexpectedResultSuffix|
    ensures m[..|UnexpectedResultPrefix|] == UnexpectedResultPrefix
    ensures m[|UnexpectedResultPrefix|..|m| - |UnexpectedResultSuffix|] == shown
    ensures m[|m| - |UnexpectedResultSuffix|..] == UnexpectedResultSuffix
  {
    UnexpectedResultPrefix + shown + UnexpectedResultSuffix
  }

  /** What is left of `m` after `prefix`, or `None` when `m` does not start
      with `prefix`. */
  function StripPrefix(prefix: string, m: string): (r: Option<string>)
    ensures r.Some? <==> |prefix| <= |m| && m[..|prefix|] == prefix
    ensures r.Some? ==> r.value == m[|prefix|..]
  {
    if prefix == [] then
      Some(m)
    else if m == [] || m[0] != prefix[0] then
      None
    else
      StripPrefix(prefix[1..], m[1..])
  }

  /** The value named by a message of that form, or `None` for any other
      message. */
  function ShownValue(m: string): (r: Option<string>)
    ensures r.Some? ==> UnexpectedResultMessage(r.value) == m
  {
    match StripPrefix(UnexpectedResultPrefix, m)
    case None => None
    case Some(rest) =>
      var s := |UnexpectedResultSuffix|;
      if |rest| >= s && rest[|rest| - s..] == UnexpectedResultSuffix then
        assert rest == rest[..|rest| - s] + rest[|rest| - s..];
        Some(rest[..|rest| - s])
      else
        None
  }

  /** The message names the returned value verbatim: it can be read back. */
  lemma ShownValueRoundTrip(shown: string)
    ensures ShownValue(UnexpectedResultMessage(shown)) == Some(shown)
  {
  }

  /** Together with the ensures of ShownValue: a message parses to `shown`
      exactly when it is the message for `shown`. */
  lemma ShownValueIff(m: string, shown: string)
    ensures ShownValue(m) == Some(shown) <==> m == UnexpectedResultMessage(shown)
  {
  }

  /** Different returned values give different messages. */
  lemma UnexpectedResultMessageInjective(a: string, b: string)
    requires UnexpectedResultMessage(a) == UnexpectedResultMessage(b)
    ensures a == b
  {
  }
}
