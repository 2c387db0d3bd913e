/**
 * The clean-up applied to the model's reply before it is parsed as JSON: strip
 * whitespace, drop a leading ```` ```json ```` and/or ```` ``` ```` and a
 * trailing ```` ``` ````, strip again. Both generators run the same steps.
 */
module ResponseParser {
  import opened PyStr

  const Fence := "```"
  const JsonFence := "```json"

  /**
   * The reply text as handed to the JSON parser. The three checks are exact
   * prefix/suffix tests applied one after the other, so ```` ```json ```` is
   * followed by a second test for ```` ``` ```` on what remains.
   */
  function StripCodeFences(reply: string): (r: string)
    ensures |r| <= |reply|
    ensures Stripped(r)
  {
    Strip(DropFences(Strip(reply)))
  }

  /** The three fence tests, in the order the client applies them. */
  function DropFences(c0: string): (r: string)
    ensures |r| <= |c0|
  {
    var c1 := if StartsWith(c0, JsonFence) then c0[7..] else c0;
    var c2 := if StartsWith(c1, Fence) then c1[3..] else c1;
    if EndsWith(c2, Fence) then c2[..|c2| - 3] else c2
  }

  lemma NewlineIsSpace()
    ensures AllSpace("\n")
  {
    assert IsSpace('\n');
  }

  lemma DropJsonFences(body: string)
    ensures DropFences(JsonFence + "\n" + body + "\n" + Fence) == "\n" + body + "\n"
  {
    var inner := "\n" + body + "\n";
    var s := JsonFence + inner + Fence;
    assert JsonFence + "\n" + body + "\n" + Fence == s;
    assert s[..7] == JsonFence;
    var c1 := s[7..];
    assert c1 == inner + Fence;
    assert c1[0] == '\n';
    assert c1[|c1| - 3..] == Fence;
    assert c1[..|c1| - 3] == inner;
  }

  lemma DropPlainFences(body: string)
    ensures DropFences(Fence + "\n" + body + "\n" + Fence) == "\n" + body + "\n"
  {
    var inner := "\n" + body + "\n";
    var s := Fence + inner + Fence;
    assert Fence + "\n" + body + "\n" + Fence == s;
    assert s[3] == '\n';
    assert !StartsWith(s, JsonFence);
    assert s[..3] == Fence;
    var c2 := s[3..];
    assert c2 == inner + Fence;
    assert c2[|c2| - 3..] == Fence;
    assert c2[..|c2| - 3] == inner;
  }

  /** A reply wrapped as ```` ```json ````, newline, body, newline, ```` ``` ```` yields the stripped body. */
  lemma JsonFencedReply(body: string)
    ensures StripCodeFences(JsonFence + "\n" + body + "\n" + Fence) == Strip(body)
  {
    var s := JsonFence + "\n" + body + "\n" + Fence;
    assert Stripped(s) by { assert s[0] == '`' && s[|s| - 1] == '`'; }
    StrippedFixed(s);
    DropJsonFences(body);
    NewlineIsSpace();
    StripPadded("\n", body, "\n");
  }

  /** A reply wrapped in plain ```` ``` ```` fences yields the stripped body too. */
  lemma PlainFencedReply(body: string)
    ensures StripCodeFences(Fence + "\n" + body + "\n" + Fence) == Strip(body)
  {
    var s := Fence + "\n" + body + "\n" + Fence;
    assert Stripped(s) by { assert s[0] == '`' && s[|s| - 1] == '`'; }
    StrippedFixed(s);
    DropPlainFences(body);
    NewlineIsSpace();
    StripPadded("\n", body, "\n");
  }

  lemma DropFencesNoop(c0: string)
    requires !StartsWith(c0, Fence) && !EndsWith(c0, Fence)
    ensures DropFences(c0) == c0
  {
  }

  /** A reply with no fence at either end is only stripped. */
  lemma UnfencedReply(reply: string)
    requires !StartsWith(Strip(reply), Fence) && !EndsWith(Strip(reply), Fence)
    ensures StripCodeFences(reply) == Strip(reply)
  {
    DropFencesNoop(Strip(reply));
    StripIdempotent(reply);
  }

  /**
   * Fencing a JSON body does not change what the parser sees: a fenced reply
   * and the bare body parse alike, for any parser.
   */
  lemma FencingIsTransparent<T>(body: string, parse: string -> T)
    requires !StartsWith(Strip(body), Fence) && !EndsWith(Strip(body), Fence)
    ensures parse(StripCodeFences(JsonFence + "\n" + body + "\n" + Fence)) == parse(StripCodeFences(body))
    ensures parse(StripCodeFences(Fence + "\n" + body + "\n" + Fence)) == parse(StripCodeFences(body))
  {
    JsonFencedReply(body);
    PlainFencedReply(body);
    UnfencedReply(body);
  }
}
