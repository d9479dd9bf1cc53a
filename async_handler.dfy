/**
 * The wrapper every request handler runs inside: it awaits the handler and, when
 * the handler throws, turns the database layer's error kinds into 400 responses
 * and hands any other error on unchanged.
 */
module AsyncHandler {
  import opened Wrappers
  import opened Errors

  /** ASCII upper-casing of one character. */
  function UpperChar(c: char): char {
    if 'a' <= c <= 'z' then (c as int - 32) as char else c
  }

  /** `s.charAt(0).toUpperCase() + s.slice(1)`. */
  function Capitalize(s: string): (r: string)
    ensures |r| == |s|
    ensures |s| > 0 ==> r[0] == UpperChar(s[0]) && r[1..] == s[1..]
    ensures s == [] ==> r == []
  {
    if s == [] then [] else [UpperChar(s[0])] + s[1..]
  }

  /** `parts.join(sep)`. */
  function Join(parts: seq<string>, sep: string): (r: string)
    ensures |parts| == 0 ==> r == ""
    ensures |parts| >= 1 ==> parts[0] <= r
    ensures |parts| == 1 ==> r == parts[0]
    decreases |parts|
  {
    if |parts| == 0 then ""
    else if |parts| == 1 then parts[0]
    else parts[0] + sep + Join(parts[1..], sep)
  }

  /** Joining one more part appends the separator and that part. */
  lemma {:induction false} JoinSnoc(parts: seq<string>, last: string, sep: string)
    requires |parts| > 0
    ensures Join(parts + [last], sep) == Join(parts, sep) + sep + last
    decreases |parts|
  {
    if |parts| == 1 {
      assert parts + [last] == [parts[0], last];
      assert [parts[0], last][1..] == [last];
    } else {
      assert (parts + [last])[1..] == parts[1..] + [last];
      JoinSnoc(parts[1..], last, sep);
    }
  }

  /** The catch block: the error kinds are tested in the order ValidationError,
      duplicate key (code 11000), CastError; each becomes a 400, anything else is
      handed on unchanged. */
  function Translate<T>(e: Thrown): (r: Outcome<T>)
    ensures !r.Ok?
    ensures r.Err? ==> r.response.statusCode == 400
    ensures e.name == "ValidationError" ==>
              r == Err(ErrorResponse(Text(Join(e.errorMessages, ", ")), 400))
    ensures e.name != "ValidationError" && e.code == Some(11000) && |e.keyValueKeys| > 0 ==>
              r == Err(ErrorResponse(Text(Capitalize(e.keyValueKeys[0]) + " already exists"), 400))
    ensures e.name != "ValidationError" && e.code == Some(11000) && |e.keyValueKeys| == 0 ==>
              r.Escaped? && r.error.name == "TypeError"
    ensures e.name != "ValidationError" && e.code != Some(11000) && e.name == "CastError" ==>
              r == Err(ErrorResponse(Text("Invalid " + e.path + ": " + e.value), 400))
    ensures r.Unhandled? <==>
              e.name != "ValidationError" && e.code != Some(11000) && e.name != "CastError"
    ensures r.Unhandled? ==> r.error == e
  {
    if e.name == "ValidationError" then
      Err(ErrorResponse(Text(Join(e.errorMessages, ", ")), 400))
    else if e.code == Some(11000) then
      if |e.keyValueKeys| == 0 then
        // Object.keys(...)[0] is undefined, and reading charAt of it throws out of the catch block
        Escaped(TypeErrorOf("Cannot read properties of undefined (reading 'charAt')"))
      else
        Err(ErrorResponse(Text(Capitalize(e.keyValueKeys[0]) + " already exists"), 400))
    else if e.name == "CastError" then
      Err(ErrorResponse(Text("Invalid " + e.path + ": " + e.value), 400))
    else
      Unhandled(e)
  }

  /** The wrapped handler: what the handler returns passes through untouched; what
      it throws is translated. */
  function Wrap<T>(x: Execution<T>): (r: Outcome<T>)
    ensures x.Returned? ==> r == x.outcome
    ensures x.Threw? ==> r == Translate(x.error) && !r.Ok?
  {
    match x
    case Returned(o) => o
    case Threw(e) => Translate(e)
  }

  /** A duplicate registration that reaches the unique index on `email`. */
  lemma DuplicateEmailMessage()
    ensures Translate<int>(DuplicateKeyOf(["email"])) ==
            Err(ErrorResponse(Text("Email already exists"), 400))
  {
    assert UpperChar('e') == 'E';
    assert Capitalize("email") == ['E'] + "mail";
    assert Capitalize("email") + " already exists" == "Email already exists";
  }

  /** A ValidationError that also carries code 11000 is reported as a validation
      failure: the ValidationError test comes first. */
  lemma ValidationBeforeDuplicate(messages: seq<string>, keys: seq<string>)
    ensures Translate<int>(Thrown("ValidationError", "", Some(11000), messages, keys, "", "")) ==
            Err(ErrorResponse(Text(Join(messages, ", ")), 400))
  {
  }
}
