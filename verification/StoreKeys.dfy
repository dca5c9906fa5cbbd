/** The store's keys: an object lives under its path and id, and List gives
    keys back that getID turns into ids (core/store.go). */
module StoreKeys {

  function KeyFor(path: string, id: string): string {
    path + "/" + id
  }

  /** strings.LastIndex(key, "/"): the position of the last slash, or -1. */
  function LastSlash(key: string): (i: int)
    ensures -1 <= i < |key|
    ensures i >= 0 ==> key[i] == '/'
    ensures forall j :: i < j < |key| ==> key[j] != '/'
  {
    if key == "" then -1
    else if key[|key| - 1] == '/' then |key| - 1
    else LastSlash(key[..|key| - 1])
  }

  function GetID(key: string): string {
    var index := LastSlash(key);
    if index <= 0 then key else key[index + 1..]
  }

  /** Reading an id back works exactly for a non-empty path and an id without
      slashes; under an empty path every id comes back with a slash before it. */
  lemma GetIDOfKey(path: string, id: string)
    ensures GetID(KeyFor(path, id)) == id <==> path != "" && '/' !in id
    ensures path == "" && '/' !in id ==> GetID(KeyFor(path, id)) == "/" + id
  {
    var key := KeyFor(path, id);
    var index := LastSlash(key);
    assert key[|path|] == '/' && index >= |path|;
    if '/' in id {
      var j :| 0 <= j < |id| && id[j] == '/';
      assert key[|path| + 1 + j] == '/';
      assert index > |path|;
      assert |GetID(key)| < |id|;
    } else {
      forall j | |path| < j < |key| ensures key[j] != '/' {
        assert key[j] == id[j - |path| - 1];
      }
      assert index == |path|;
      assert key[index + 1..] == id;
      assert path == "" ==> |key| == |id| + 1;
    }
  }
}
