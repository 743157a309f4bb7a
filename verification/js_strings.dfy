/** The few JavaScript value and string operations the extension's background
    script and the gallery page rely on. A string is a sequence of UTF-16 code
    units without surrogates: each `char` stands for one code unit, so `|s|` is
    `s.length` for every string whose characters lie in the Basic Multilingual
    Plane. */
module JsStrings {

  datatype Option<+T> = None | Some(value: T)

  datatype Result<+T, +E> = Ok(value: T) | Failed(error: E)

  /** `s.startsWith(p)` */
  predicate StartsWith(s: string, p: string)
    ensures StartsWith(s, p) <==> |p| <= |s| && forall i :: 0 <= i < |p| ==> s[i] == p[i]
  {
    p <= s
  }

  /** The folding a case-insensitive regular expression without the `u` flag
      applies: only the ASCII letters change case (a non-ASCII character never
      folds onto an ASCII one). */
  function ToLower(c: char): char {
    if 'A' <= c <= 'Z' then (c as int + 32) as char else c
  }

  /** `/^p/i.test(s)` for a pattern `p` written in lower-case ASCII. */
  predicate StartsWithIgnoringCase(s: string, p: string)
    ensures StartsWithIgnoringCase(s, p) <==> |p| <= |s| && LowerCase(s[..|p|]) == p
    ensures StartsWith(s, p) && LowerCase(p) == p ==> StartsWithIgnoringCase(s, p)
  {
    |p| <= |s| && forall i :: 0 <= i < |p| ==> ToLower(s[i]) == p[i]
  }

  /** `ToLower` applied to every character. */
  function LowerCase(s: string): (t: string)
    ensures |t| == |s|
    ensures forall i :: 0 <= i < |s| ==> t[i] == ToLower(s[i])
  {
    seq(|s|, i requires 0 <= i < |s| => ToLower(s[i]))
  }

  /** `s.indexOf(c)`, with `|s|` standing for "not found" (JavaScript's -1). */
  function IndexOf(s: string, c: char): (i: nat)
    ensures i <= |s|
    ensures forall j :: 0 <= j < i ==> s[j] != c
    ensures i < |s| ==> s[i] == c
  {
    if s == [] || s[0] == c then 0 else 1 + IndexOf(s[1..], c)
  }

  /** `s.split(",")[1]`: the text between the first and the second comma (or
      the end), and `undefined` when there is no comma at all. */
  function SecondCommaField(s: string): (field: Option<string>)
    ensures field.None? <==> ',' !in s
    ensures field.Some? ==> ',' !in field.value
    ensures field.Some? ==>
      var rest := s[IndexOf(s, ',') + 1..];
      field.value <= rest && (|field.value| == |rest| || rest[|field.value|] == ',')
  {
    var first := IndexOf(s, ',');
    if first == |s| then None
    else
      var rest := s[first + 1..];
      Some(rest[..IndexOf(rest, ',')])
  }

  /** Splitting a data URL at its commas gives back the payload after the
      header, whatever the payload is, as long as neither part has a comma. */
  lemma SecondCommaFieldOfDataUrl(header: string, payload: string)
    requires ',' !in header && ',' !in payload
    ensures SecondCommaField(header + "," + payload) == Some(payload)
  {
    var s := header + "," + payload;
    assert s[|header|] == ',';
    assert forall j :: 0 <= j < |header| ==> s[j] == header[j];
    var first := IndexOf(s, ',');
    assert first == |header|;
    assert s[first + 1..] == payload;
    assert IndexOf(payload, ',') == |payload|;
    assert payload[..|payload|] == payload;
  }
}
