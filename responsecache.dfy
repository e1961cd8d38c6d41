/**
 * The on-disk response cache.  For a method the server lists in its cache
 * hashes, the reply's params are kept in a file named after the method, a
 * hash of the call (method, serialised params and locale) and the server's
 * current hash for that method.  A file is written only when none exists
 * under that name, and is read back only under the server's current hash,
 * so a new server hash makes older files unreachable without deleting them.
 * The cache directory is a map from file name to what was written; the call
 * hash (MD5 in the client) is a parameter.
 */
module ResponseCache {
  import opened Common

  /** The cache directory: file name to the params value written into it. */
  type CacheFiles = map<string, Value>

  /** The hash of a call: method, params and locale in, hex digest out. */
  type CallHash = (string, Document, string) -> string

  /** `<method>-<call hash>-<server hash>.cache`, in the cache directory (lines 106 and 683). */
  function CacheFileName(fullMethod: string, callHash: string, serverHash: string): (r: string)
    ensures |r| == |fullMethod| + |callHash| + |serverHash| + 8
    ensures r[..|fullMethod| + 1] == fullMethod + "-"
    ensures r[|r| - |serverHash| - 6..] == serverHash + ".cache"
  {
    fullMethod + "-" + callHash + "-" + serverHash + ".cache"
  }

  /**
   * What reading a cache file yields: a written map comes back as that map,
   * a written list as an empty map (`toMap()` of a list), and anything else
   * fails to parse and counts as a miss.
   */
  function ReadBack(content: Value): Option<Document>
  {
    match content
    case Object(m) => Some(m)
    case List(_) => Some(map[])
    case _ => None
  }

  /** The cache lookup of `sendCommand` for a call with the given call hash. */
  function Lookup(files: CacheFiles, serverHashes: map<string, string>, fullMethod: string, callHash: string): (r: Option<Document>)
    ensures fullMethod !in serverHashes ==> r == None
    ensures r.Some? ==> CacheFileName(fullMethod, callHash, serverHashes[fullMethod]) in files
  {
    if fullMethod !in serverHashes then None
    else
      var name := CacheFileName(fullMethod, callHash, serverHashes[fullMethod]);
      if name in files then ReadBack(files[name]) else None
  }

  /** The cache write after a reply: only for listed methods, and never over an existing file. */
  function Store(files: CacheFiles, serverHashes: map<string, string>, fullMethod: string, callHash: string, content: Value): (r: CacheFiles)
    ensures fullMethod !in serverHashes ==> r == files
    ensures forall n :: n in files ==> n in r && r[n] == files[n]
    ensures forall n :: n in r && n !in files ==> n == CacheFileName(fullMethod, callHash, serverHashes[fullMethod])
  {
    if fullMethod !in serverHashes then files
    else
      var name := CacheFileName(fullMethod, callHash, serverHashes[fullMethod]);
      if name in files then files else files[name := content]
  }

  /** Two file names of the same call are equal only under the same server hash. */
  lemma FileNameDeterminesHash(fullMethod: string, callHash: string, h1: string, h2: string)
    requires CacheFileName(fullMethod, callHash, h1) == CacheFileName(fullMethod, callHash, h2)
    ensures h1 == h2
  {
    var prefix := fullMethod + "-" + callHash + "-";
    var n1 := CacheFileName(fullMethod, callHash, h1);
    assert n1 == prefix + (h1 + ".cache");
    assert CacheFileName(fullMethod, callHash, h2) == prefix + (h2 + ".cache");
    assert |h1| == |h2|;
    assert h1 == n1[|prefix|..|prefix| + |h1|];
  }

  /**
   * A reply stored while the server announced one hash is never returned once
   * it announces another: the lookup sees the cache as it was before the write.
   */
  lemma StaleEntryNeverRead(files: CacheFiles, before: map<string, string>, after: map<string, string>,
                            fullMethod: string, callHash: string, content: Value)
    requires fullMethod in before && fullMethod in after && before[fullMethod] != after[fullMethod]
    ensures Lookup(Store(files, before, fullMethod, callHash, content), after, fullMethod, callHash)
         == Lookup(files, after, fullMethod, callHash)
  {
    var written := CacheFileName(fullMethod, callHash, before[fullMethod]);
    var read := CacheFileName(fullMethod, callHash, after[fullMethod]);
    if written == read {
      FileNameDeterminesHash(fullMethod, callHash, before[fullMethod], after[fullMethod]);
    }
  }

  /** A stored map is what the next lookup of the same call under the same hash returns. */
  lemma StoreThenLookup(files: CacheFiles, hashes: map<string, string>, fullMethod: string, callHash: string, params: Document)
    requires fullMethod in hashes
    requires CacheFileName(fullMethod, callHash, hashes[fullMethod]) !in files
    ensures Lookup(Store(files, hashes, fullMethod, callHash, Object(params)), hashes, fullMethod, callHash) == Some(params)
  {
  }

  /** Once a file exists for a call and hash, later replies do not change what the lookup returns. */
  lemma FirstWriterWins(files: CacheFiles, hashes: map<string, string>, fullMethod: string, callHash: string, content: Value)
    requires fullMethod in hashes && CacheFileName(fullMethod, callHash, hashes[fullMethod]) in files
    ensures Store(files, hashes, fullMethod, callHash, content) == files
  {
  }
}
