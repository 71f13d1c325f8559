/** The key-value store run-perf reads docker build results from (a badger database
  * behind `utils.MetaStore`): keys are lists of strings, values are bytes. */
module Meta {
  newtype byte = x: int | 0 <= x < 256

  /** The stored entries, and the keys whose read fails with an error other than "key not found". */
  datatype MetaStore = MetaStore(entries: map<seq<string>, seq<byte>>, readErrors: map<seq<string>, string>)

  datatype Read = Found(value: seq<byte>) | KeyNotFound | ReadError(message: string)

  /** `GetCopy`: what one read of `key` returns. */
  function GetCopy(store: MetaStore, key: seq<string>): (r: Read)
    ensures r.ReadError? <==> key in store.readErrors
    ensures r.ReadError? ==> r.message == store.readErrors[key]
    ensures r.Found? <==> key !in store.readErrors && key in store.entries
    ensures r.Found? ==> r.value == store.entries[key]
    ensures r.KeyNotFound? <==> key !in store.readErrors && key !in store.entries
  {
    if key in store.readErrors then ReadError(store.readErrors[key])
    else if key in store.entries then Found(store.entries[key])
    else KeyNotFound
  }

  /** Go's `string(b)`: the bytes kept one for one, each as the character with that code. */
  function BytesToString(b: seq<byte>): (s: string)
    ensures |s| == |b| && forall i :: 0 <= i < |b| ==> s[i] as int == b[i] as int
  {
    if b == [] then [] else [b[0] as int as char] + BytesToString(b[1..])
  }

  /** Distinct byte strings read back as distinct strings. */
  lemma BytesToStringInjective(a: seq<byte>, b: seq<byte>)
    requires BytesToString(a) == BytesToString(b)
    ensures a == b
  {
    assert |a| == |b|;
    forall i | 0 <= i < |a| ensures a[i] == b[i] {
      assert BytesToString(a)[i] == BytesToString(b)[i];
    }
  }

  /** The bytes of an ASCII string. */
  function AsciiBytes(s: string): (b: seq<byte>)
    requires forall i :: 0 <= i < |s| ==> s[i] as int < 128
    ensures BytesToString(b) == s
  {
    if s == [] then []
    else
      var b := [s[0] as int as byte] + AsciiBytes(s[1..]);
      assert BytesToString(b)[1..] == BytesToString(b[1..]);
      b
  }
}
