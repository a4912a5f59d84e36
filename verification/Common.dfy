/** Values shared by every module. */
module Common {
  datatype Option<+T> = None | Some(value: T)

  /** `estimate_tokens` of `providers/base.py`: about four characters a token. */
  function Tokens(text: string): nat {
    if text == "" then 0 else (|text| + 3) / 4
  }

  function Join(sep: char, parts: seq<string>): string {
    if parts == [] then ""
    else if |parts| == 1 then parts[0]
    else Join(sep, parts[..|parts| - 1]) + [sep] + parts[|parts| - 1]
  }

  lemma {:induction false} JoinUnion(sep: char, a: seq<string>, b: seq<string>)
    requires a != [] && b != []
    ensures Join(sep, a + b) == Join(sep, a) + [sep] + Join(sep, b)
  {
    var n := |b| - 1;
    assert (a + b)[|a + b| - 1] == b[n] && (a + b)[..|a + b| - 1] == a + b[..n];
    if n == 0 {
      assert a + b[..0] == a;
    } else {
      JoinUnion(sep, a, b[..n]);
    }
  }
}
