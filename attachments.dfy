/** How a request's `filesId` attachments are turned into image URLs, image ids and
    vector-store ids: only the caller's own files take part, image files give their
    URL, other files give their vector store when they have one. */
module Attachments {
  import opened Store

  /** What `ChatgptFile.findMany(ids)` answers: every requested row that exists,
      each once, in the order the store returns them. */
  ghost predicate FoundRows(files: map<nat, ChatFile>, ids: seq<nat>, found: seq<nat>) {
    && (forall i :: 0 <= i < |found| ==> found[i] in ids && found[i] in files)
    && (forall i, j :: 0 <= i < j < |found| ==> found[i] != found[j])
    && (forall id :: id in ids && id in files ==> id in found)
  }

  predicate OwnedImage(f: ChatFile, caller: nat) {
    f.userId == caller && f.kind == ImageFile
  }

  /** `else if (f.vectorStore)`: a non-image file with a non-empty vector store id. */
  predicate OwnedStore(f: ChatFile, caller: nat) {
    f.userId == caller && f.kind != ImageFile && f.vectorStore.Some? && f.vectorStore.value != ""
  }

  function ImageIds(files: map<nat, ChatFile>, found: seq<nat>, caller: nat): seq<nat>
    requires forall i :: 0 <= i < |found| ==> found[i] in files
  {
    if found == [] then []
    else
      var last := found[|found| - 1];
      ImageIds(files, found[..|found| - 1], caller) + (if OwnedImage(files[last], caller) then [last] else [])
  }

  function ImageUrls(files: map<nat, ChatFile>, found: seq<nat>, caller: nat): seq<string>
    requires forall i :: 0 <= i < |found| ==> found[i] in files
  {
    if found == [] then []
    else
      var f := files[found[|found| - 1]];
      ImageUrls(files, found[..|found| - 1], caller) + (if OwnedImage(f, caller) then [f.url] else [])
  }

  function VectorStores(files: map<nat, ChatFile>, found: seq<nat>, caller: nat): seq<string>
    requires forall i :: 0 <= i < |found| ==> found[i] in files
  {
    if found == [] then []
    else
      var f := files[found[|found| - 1]];
      VectorStores(files, found[..|found| - 1], caller) + (if OwnedStore(f, caller) then [f.vectorStore.value] else [])
  }

  /** The `forEach` over the found rows that fills the three lists. */
  method Split(files: map<nat, ChatFile>, found: seq<nat>, caller: nat)
    returns (images: seq<string>, imageIds: seq<nat>, stores: seq<string>)
    requires forall i :: 0 <= i < |found| ==> found[i] in files
    ensures images == ImageUrls(files, found, caller)
    ensures imageIds == ImageIds(files, found, caller)
    ensures stores == VectorStores(files, found, caller)
  {
    images, imageIds, stores := [], [], [];
    var i := 0;
    while i < |found|
      invariant 0 <= i <= |found|
      invariant images == ImageUrls(files, found[..i], caller)
      invariant imageIds == ImageIds(files, found[..i], caller)
      invariant stores == VectorStores(files, found[..i], caller)
    {
      assert found[..i + 1][..i] == found[..i];
      var f := files[found[i]];
      if f.userId == caller {
        if f.kind == ImageFile {
          images := images + [f.url];
          imageIds := imageIds + [found[i]];
        } else if f.vectorStore.Some? && f.vectorStore.value != "" {
          stores := stores + [f.vectorStore.value];
        }
      }
      i := i + 1;
    }
    assert found[..i] == found;
  }

  /** The image ids are exactly the found rows that are the caller's images, in order,
      and the URLs are theirs, position by position. */
  lemma {:induction false} ImagesExactly(files: map<nat, ChatFile>, found: seq<nat>, caller: nat)
    requires forall i :: 0 <= i < |found| ==> found[i] in files
    ensures |ImageUrls(files, found, caller)| == |ImageIds(files, found, caller)|
    ensures forall k :: 0 <= k < |ImageIds(files, found, caller)| ==>
      var id := ImageIds(files, found, caller)[k];
      id in files && OwnedImage(files[id], caller) && ImageUrls(files, found, caller)[k] == files[id].url
    ensures forall id :: id in ImageIds(files, found, caller) <==> id in found && OwnedImage(files[id], caller)
  {
    if found != [] {
      var init := found[..|found| - 1];
      ImagesExactly(files, init, caller);
      assert forall id :: id in found <==> id in init || id == found[|found| - 1];
    }
  }

  /** Every vector store listed belongs to one of the caller's non-image files, and
      every such file's store is listed. */
  lemma {:induction false} StoresExactly(files: map<nat, ChatFile>, found: seq<nat>, caller: nat)
    requires forall i :: 0 <= i < |found| ==> found[i] in files
    ensures forall v :: v in VectorStores(files, found, caller) ==>
      exists i :: 0 <= i < |found| && OwnedStore(files[found[i]], caller) && files[found[i]].vectorStore == Some(v)
    ensures forall i :: 0 <= i < |found| && OwnedStore(files[found[i]], caller) ==>
      files[found[i]].vectorStore.value in VectorStores(files, found, caller)
  {
    if found != [] {
      var n := |found| - 1;
      var init := found[..n];
      StoresExactly(files, init, caller);
      forall v | v in VectorStores(files, found, caller)
        ensures exists i :: 0 <= i < |found| && OwnedStore(files[found[i]], caller) && files[found[i]].vectorStore == Some(v)
      {
        if v in VectorStores(files, init, caller) {
          var i :| 0 <= i < |init| && OwnedStore(files[init[i]], caller) && files[init[i]].vectorStore == Some(v);
          assert found[i] == init[i];
        } else {
          assert OwnedStore(files[found[n]], caller) && files[found[n]].vectorStore == Some(v);
        }
      }
      forall i | 0 <= i < |found| && OwnedStore(files[found[i]], caller)
        ensures files[found[i]].vectorStore.value in VectorStores(files, found, caller)
      {
        if i < n {
          assert found[i] == init[i];
        }
      }
    }
  }
}
