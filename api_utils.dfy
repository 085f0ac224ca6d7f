/** api/utils.go: the last path segment of an NSX policy path, and the linear
    first-match lookup the resource joiner uses. */
module ApiUtils {
  import opened Common

  /** `PathToID`: the last element of `strings.Split(path, "/")`, i.e. the text after
      the last "/" or the whole string when it has none. */
  function PathToID(path: string): string
    decreases |path|
  {
    if path == [] then []
    else if path[|path| - 1] == '/' then []
    else PathToID(path[..|path| - 1]) + [path[|path| - 1]]
  }

  /** The identifier holds no "/". */
  lemma {:induction false} PathToIDNoSlash(path: string)
    ensures '/' !in PathToID(path)
    decreases |path|
  {
    if path != [] && path[|path| - 1] != '/' {
      PathToIDNoSlash(path[..|path| - 1]);
    }
  }

  /** The identifier ends `path`, and is preceded in `path` by a "/" unless it is the
      whole path. */
  lemma {:induction false} PathToIDSuffix(path: string)
    ensures |PathToID(path)| <= |path| && PathToID(path) == path[|path| - |PathToID(path)|..]
    ensures |PathToID(path)| < |path| ==> path[|path| - |PathToID(path)| - 1] == '/'
    decreases |path|
  {
    if path != [] && path[|path| - 1] != '/' {
      var init := path[..|path| - 1];
      var c := path[|path| - 1];
      PathToIDSuffix(init);
      var id := PathToID(init);
      assert PathToID(path) == id + [c];
      assert path == init + [c];
      assert path[|init| - |id|..] == init[|init| - |id|..] + [c];
    }
  }

  /** A path built from a prefix and a slash-free identifier gives that identifier back. */
  lemma {:induction false} PathToIDOfJoin(prefix: string, id: string)
    requires '/' !in id
    ensures PathToID(prefix + "/" + id) == id
    decreases |id|
  {
    var p := prefix + "/" + id;
    if id == [] {
      assert p[|p| - 1] == '/';
    } else {
      assert p[..|p| - 1] == prefix + "/" + id[..|id| - 1];
      PathToIDOfJoin(prefix, id[..|id| - 1]);
      assert id[..|id| - 1] + [id[|id| - 1]] == id;
    }
  }

  /** A string without "/" is its own identifier. */
  lemma {:induction false} PathToIDOfPlain(id: string)
    requires '/' !in id
    ensures PathToID(id) == id
    decreases |id|
  {
    if id != [] {
      PathToIDOfPlain(id[..|id| - 1]);
      assert id[..|id| - 1] + [id[|id| - 1]] == id;
    }
  }

  /** The message `search` fails with. */
  function NotFound(needle: string): (e: Error)
    ensures e.message == "could not find object '" + needle + "' in collection"
  {
    Error("could not find object '" + needle + "' in collection")
  }

  /** The specification of `search`: the lowest index whose key is the needle, if any. */
  function FirstIndex<T>(reader: T -> string, needle: string, items: seq<T>): (k: Option<nat>)
    ensures k.Some? ==> k.value < |items| && reader(items[k.value]) == needle
                        && forall j :: 0 <= j < k.value ==> reader(items[j]) != needle
    ensures k.None? <==> forall j :: 0 <= j < |items| ==> reader(items[j]) != needle
    decreases |items|
  {
    if items == [] then None
    else if reader(items[0]) == needle then Some(0)
    else match FirstIndex(reader, needle, items[1..])
         case None => None
         case Some(k) => Some(k + 1)
  }

  /** `search`: scans the collection from index 0 and returns the first element whose key
      equals `needle`; fails, naming the needle, when there is none. */
  method Search<T>(reader: T -> string, needle: string, items: seq<T>) returns (r: Result<T>)
    ensures r.Ok? <==> exists j :: 0 <= j < |items| && reader(items[j]) == needle
    ensures r.Ok? ==> var k := FirstIndex(reader, needle, items);
                      k.Some? && r.value == items[k.value]
    ensures r.Ok? ==> r.value in items && reader(r.value) == needle
    ensures r.Err? ==> r.error == NotFound(needle)
  {
    var cIdx := 0;
    while cIdx < |items|
      invariant 0 <= cIdx <= |items|
      invariant forall j :: 0 <= j < cIdx ==> reader(items[j]) != needle
    {
      if reader(items[cIdx]) == needle {
        return Ok(items[cIdx]);
      }
      cIdx := cIdx + 1;
    }
    return Err(NotFound(needle));
  }
}
