/**
 * Custom request headers: `parse_header` turns one `-H "Key:Value"`
 * argument into a pair, and `main` inserts the parsed pairs into a map.
 */
module Headers {
  import opened Wrappers
  import opened Text

  /** The index of the first `':'` in `s`, or `|s|` when there is none. */
  function FirstColon(s: string): (i: nat)
    ensures i <= |s|
    ensures i < |s| ==> s[i] == ':'
    ensures forall k :: 0 <= k < i ==> s[k] != ':'
  {
    if s == [] || s[0] == ':' then 0 else 1 + FirstColon(s[1..])
  }

  /** The error text `parse_header` returns for an argument without a colon; it quotes the argument. */
  function InvalidHeaderMessage(s: string): (msg: string)
    ensures |msg| == |s| + 35
    ensures msg[..14] == "无效的Header格式: \"" && msg[14..14 + |s|] == s
  {
    "无效的Header格式: \"" + s + "\". 期望格式为 \"Key:Value\"."
  }

  /**
   * `parse_header`: split at the first colon only (`splitn(2, ':')`) and
   * trim both halves; an argument with no colon is an error.
   */
  function ParseHeader(s: string): (r: Result<(string, string), string>)
    ensures r.Success? <==> ':' in s
    ensures r.Failure? ==> r.error == InvalidHeaderMessage(s)
    ensures r.Success? ==> exists i :: 0 <= i < |s| && s[i] == ':' && ':' !in s[..i]
                                       && r.value == (Trim(s[..i]), Trim(s[i + 1..]))
    ensures r.Success? ==> ':' !in r.value.0 && Trimmed(r.value.0) && Trimmed(r.value.1)
  {
    var i := FirstColon(s);
    if i == |s| then
      Failure(InvalidHeaderMessage(s))
    else
      assert ':' !in s[..i];
      Success((Trim(s[..i]), Trim(s[i + 1..])))
  }

  /**
   * Writing a trimmed key without a colon, a colon and a trimmed value
   * (which may itself contain colons) parses back to that key and value.
   */
  lemma ParseHeaderRoundTrip(key: string, value: string)
    requires ':' !in key && Trimmed(key) && Trimmed(value)
    ensures ParseHeader(key + ":" + value) == Success((key, value))
  {
    var s := key + ":" + value;
    FirstColonAfterKey(key, value);
    assert s[..|key|] == key && s[|key| + 1..] == value;
  }

  /** In `key + ":" + value` with a colon-free key, the first colon is the one after the key. */
  lemma FirstColonAfterKey(key: string, value: string)
    requires ':' !in key
    ensures FirstColon(key + ":" + value) == |key|
  {
    var s := key + ":" + value;
    assert s[|key|] == ':';
  }

  /** Pair `i` is the last pair in `pairs` with its key. */
  predicate LastWithKey(pairs: seq<(string, string)>, i: nat)
    requires i < |pairs|
  {
    forall j :: i < j < |pairs| ==> pairs[j].0 != pairs[i].0
  }

  /**
   * The loop in `main` that inserts every parsed header into `headers_map`:
   * the map's keys are the keys given, and when a key is given more than
   * once the value of its last occurrence wins.
   */
  method BuildHeaderMap(headers: seq<(string, string)>) returns (m: map<string, string>)
    ensures m.Keys == set i | 0 <= i < |headers| :: headers[i].0
    ensures forall i :: 0 <= i < |headers| && LastWithKey(headers, i) ==> m[headers[i].0] == headers[i].1
  {
    m := map[];
    for n := 0 to |headers|
      invariant m.Keys == set i | 0 <= i < n :: headers[i].0
      invariant forall i :: 0 <= i < n && LastWithKey(headers[..n], i) ==> m[headers[i].0] == headers[i].1
    {
      var (key, value) := headers[n];
      m := m[key := value];
      forall i | 0 <= i < n + 1 && LastWithKey(headers[..n + 1], i)
        ensures m[headers[i].0] == headers[i].1
      {
        if i < n {
          assert headers[..n + 1][n] == headers[n];
          assert LastWithKey(headers[..n], i) by {
            forall j | i < j < n ensures headers[..n][j].0 != headers[..n][i].0 {
              assert headers[..n + 1][j] == headers[..n][j];
            }
          }
        }
      }
    }
    assert headers[..|headers|] == headers;
  }
}
