/** Idempotency keys as text, and why the engine's model may treat them as the calls themselves. */
module Idempotency {
  import opened Values
  import opened Models

  const COLON := ":"
  const INTENT_SUFFIX := ":call"

  function Raw(run: string, id: string, name: string, args: string): string {
    run + COLON + id + COLON + name + COLON + args
  }

  function IntentKey(observationKey: string): string {
    observationKey + INTENT_SUFFIX
  }

  predicate NoColon(s: string) {
    ':' !in s
  }

  lemma SplitAtFirstColon(a: string, rest: string, b: string, rest': string)
    requires NoColon(a) && NoColon(b) && a + COLON + rest == b + COLON + rest'
    ensures a == b && rest == rest'
  {
    var s, s' := a + COLON + rest, b + COLON + rest';
    assert s[|a|] == ':' && s'[|b|] == ':';
    assert forall i :: 0 <= i < |a| ==> s[i] == a[i];
    assert forall i :: 0 <= i < |b| ==> s'[i] == b[i];
    assert |a| == |b|;
    assert a == s[..|a|] && b == s'[..|b|];
    assert rest == s[|a| + 1..] && rest' == s'[|b| + 1..];
  }

  /** With no colon in run id, call id and name, the raw text tells everything it was made of. */
  lemma RawIsUnambiguous(run: string, id: string, name: string, args: string,
                         run': string, id': string, name': string, args': string)
    requires NoColon(run) && NoColon(id) && NoColon(name) && NoColon(run') && NoColon(id') && NoColon(name')
    requires Raw(run, id, name, args) == Raw(run', id', name', args')
    ensures run == run' && id == id' && name == name' && args == args'
  {
    var tail, tail' := name + COLON + args, name' + COLON + args';
    assert Raw(run, id, name, args) == run + COLON + (id + COLON + tail);
    assert Raw(run', id', name', args') == run' + COLON + (id' + COLON + tail');
    SplitAtFirstColon(run, id + COLON + tail, run', id' + COLON + tail');
    SplitAtFirstColon(id, tail, id', tail');
    SplitAtFirstColon(name, args, name', args');
  }

  /** With a colon in the call id it does not: some other call has the same raw text. */
  lemma ColonMakesAmbiguous(run: string, id: string, name: string, args: string) returns (id': string, name': string)
    requires !NoColon(id)
    ensures id' != id && Raw(run, id', name', args) == Raw(run, id, name, args)
  {
    var k :| 0 <= k < |id| && id[k] == ':';
    id', name' := id[..k], id[k + 1..] + COLON + name;
    assert id == id[..k] + COLON + id[k + 1..];
    assert Raw(run, id', name', args) == Raw(run, id, name, args);
  }

  // ---------------------------------------------------------------------------
  // From text to keys
  // ---------------------------------------------------------------------------

  /** How a key is written, for a digest and a canonical form of arguments. */
  function Text(digest: string -> string, dump: map<string, Json> -> string, key: Key): string {
    match key
    case Call(run, call) => digest(Raw(run, call.id, call.name, dump(call.arguments)))
    case Intent(of) => IntentKey(Text(digest, dump, of))
  }

  /** The keys the engine writes: of a call, or of the intent of a call. */
  predicate EngineKey(key: Key) {
    match key
    case Call(run, call) => NoColon(run) && NoColon(call.id) && NoColon(call.name)
    case Intent(of) => of.Call? && EngineKey(of)
  }

  /** The text that is hashed for a key, or for the key an intent belongs to. */
  function RawOf(dump: map<string, Json> -> string, key: Key): string {
    match key
    case Call(run, call) => Raw(run, call.id, call.name, dump(call.arguments))
    case Intent(of) => RawOf(dump, of)
  }

  ghost predicate Injective<A(!new), B(!new)>(f: A -> B) {
    forall x, y :: f(x) == f(y) ==> x == y
  }

  /** The digest has not met a collision between these two texts. */
  predicate NoCollision(digest: string -> string, x: string, y: string) {
    digest(x) == digest(y) ==> x == y
  }

  /** Digests have one length, so no intent's text is the digest of anything; short of a collision, equal texts mean
      equal keys: the unique index on the text is the unique index on the key. */
  lemma TextIsInjective(digest: string -> string, dump: map<string, Json> -> string, a: Key, b: Key)
    requires NoCollision(digest, RawOf(dump, a), RawOf(dump, b))
    requires Injective(dump) && (forall s :: |digest(s)| == 64)
    requires EngineKey(a) && EngineKey(b)
    ensures Text(digest, dump, a) == Text(digest, dump, b) <==> a == b
  {
    TextLength(digest, dump, a);
    TextLength(digest, dump, b);
    if Text(digest, dump, a) == Text(digest, dump, b) {
      if a.Call? {
        CallTextIsInjective(digest, dump, a, b);
      } else {
        var t, t' := Text(digest, dump, a.of), Text(digest, dump, b.of);
        assert (t + INTENT_SUFFIX)[..64] == t && (t' + INTENT_SUFFIX)[..64] == t';
        CallTextIsInjective(digest, dump, a.of, b.of);
      }
    }
  }

  lemma TextLength(digest: string -> string, dump: map<string, Json> -> string, key: Key)
    requires (forall s :: |digest(s)| == 64) && EngineKey(key)
    ensures |Text(digest, dump, key)| == if key.Call? then 64 else 69
  {
  }

  lemma CallTextIsInjective(digest: string -> string, dump: map<string, Json> -> string, a: Key, b: Key)
    requires a.Call? && b.Call? && EngineKey(a) && EngineKey(b)
    requires NoCollision(digest, RawOf(dump, a), RawOf(dump, b)) && Injective(dump)
    requires Text(digest, dump, a) == Text(digest, dump, b)
    ensures a == b
  {
    RawIsUnambiguous(a.run, a.call.id, a.call.name, dump(a.call.arguments),
                     b.run, b.call.id, b.call.name, dump(b.call.arguments));
  }
}
