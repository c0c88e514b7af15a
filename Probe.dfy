/** What a provincial portal lookup can come back with, and the status text
    both portal classifiers give for a reply whose status code is not 200
    (App.py, `consultar_arba` and `consultar_corrientes`). */
module Probe {
  import opened Text

  /** The outcome of one `requests.get`: it raised (connection failure,
      timeout, TLS error, ...), or the server answered with a status code
      and a body decoded as text. */
  datatype Response = ConnectionFailure | Reply(status: int, body: string)

  /** The status code both classifiers treat as an answer worth reading. */
  const Ok := 200

  /** A reply with status 200. */
  predicate IsOkReply(r: Response) {
    r.Reply? && r.status == Ok
  }

  /** The prefix of the text written for a reply that is not 200. */
  const HttpErrorPrefix := "Error HTTP "

  /** `f"Error HTTP {r.status_code}"`. */
  function HttpErrorText(status: int): (s: string)
  {
    HttpErrorPrefix + IntToString(status)
  }

  /** The status code can be read back from the error text, so two
      different codes never give the same text. */
  lemma HttpErrorTextRoundTrip(status: int)
    ensures HttpErrorText(status)[..|HttpErrorPrefix|] == HttpErrorPrefix
    ensures var code := HttpErrorText(status)[|HttpErrorPrefix|..];
      IsIntText(code) && ParseInt(code) == status
  {
    var s := HttpErrorText(status);
    assert s[..|HttpErrorPrefix|] == HttpErrorPrefix;
    assert s[|HttpErrorPrefix|..] == IntToString(status);
    IntToStringRoundTrip(status);
  }

  lemma HttpErrorTextInjective(a: int, b: int)
    ensures HttpErrorText(a) == HttpErrorText(b) <==> a == b
  {
    HttpErrorTextRoundTrip(a);
    HttpErrorTextRoundTrip(b);
  }

  /** The error text is made of its prefix's characters, digits and a minus sign only. */
  lemma HttpErrorTextChars(status: int, c: char)
    requires Lacks(HttpErrorPrefix, c) && c != '-' && !IsDigit(c)
    ensures Lacks(HttpErrorText(status), c)
  {
    var s := HttpErrorText(status);
    var n := IntToString(status);
    forall k | 0 <= k < |s|
      ensures s[k] != c
    {
      if k < |HttpErrorPrefix| {
        assert s[k] == HttpErrorPrefix[k];
      } else {
        assert s[k] == n[k - |HttpErrorPrefix|];
      }
    }
  }

  /** A pattern with a character outside the error text's alphabet never occurs in it. */
  lemma HttpErrorTextLacks(status: int, pattern: string, c: char)
    requires c in pattern && Lacks(HttpErrorPrefix, c) && c != '-' && !IsDigit(c)
    ensures !Contains(HttpErrorText(status), pattern)
  {
    HttpErrorTextChars(status, c);
    MissingCharNotContained(HttpErrorText(status), pattern, c);
  }

  /** Every error text says "Error", whatever the code. */
  lemma HttpErrorTextSaysError(status: int)
    ensures Contains(HttpErrorText(status), "Error")
  {
    var s := HttpErrorText(status);
    assert s[..5] == "Error";
    assert OccursAt(s, "Error", 0);
  }
}
