/**
 * The product-image store: the images picked for the product being edited,
 * at most ten of them as far as `addImages` is concerned.
 */
module ImageStore {
  import opened Js
  import opened Http

  const MAX_IMAGES := 10
  const TOO_MANY := "Máximo 10 imágenes permitidas."

  /** `images[index]` for an integer index: undefined outside `0 .. |images| - 1`. */
  function Element(images: seq<Value>, index: int): (r: Value)
    ensures 0 <= index < |images| ==> r == images[index]
    ensures !(0 <= index < |images|) ==> r == JUndef
  {
    if 0 <= index < |images| then images[index] else JUndef
  }

  /** Where `splice(index, 1)` starts: a negative index counts from the end, clamped to both ends. */
  function SpliceStart(length: nat, index: int): (start: nat)
    ensures start <= length
    ensures 0 <= index ==> start == if index < length then index else length
    ensures index < 0 ==> start == if length + index < 0 then 0 else length + index
  {
    if index < 0 then (if length + index < 0 then 0 else length + index)
    else if index < length then index
    else length
  }

  /** The list after `splice(index, 1)`. */
  function Spliced(images: seq<Value>, index: int): (r: seq<Value>)
    ensures var start := SpliceStart(|images|, index);
            && (start < |images| ==> r == images[..start] + images[start + 1..])
            && (start == |images| ==> r == images)
  {
    var start := SpliceStart(|images|, index);
    if start < |images| then images[..start] + images[start + 1..] else images
  }

  /** An index inside the list removes exactly that element and keeps the rest in order. */
  lemma SplicedInRange(images: seq<Value>, index: int)
    requires 0 <= index < |images|
    ensures |Spliced(images, index)| == |images| - 1
    ensures forall i :: 0 <= i < index ==> Spliced(images, index)[i] == images[i]
    ensures forall i :: index <= i < |Spliced(images, index)| ==> Spliced(images, index)[i] == images[i + 1]
  {
  }

  /** An index at or past the end changes nothing. */
  lemma SplicedPastEnd(images: seq<Value>, index: int)
    requires index >= |images|
    ensures Spliced(images, index) == images
  {
  }

  /** A negative index removes from the end: `-1` removes the last image, and one below `-|images|` the first. */
  lemma SplicedNegative(images: seq<Value>, index: int)
    requires |images| > 0 && index < 0
    ensures index >= -|images| ==> Spliced(images, index) == images[..|images| + index] + images[|images| + index + 1..]
    ensures index < -|images| ==> Spliced(images, index) == images[1..]
  {
  }

  /** The list after removeImage(index), given the outcome of the server-side delete when one is sent. */
  function Removed(images: seq<Value>, index: int, reply: Outcome): seq<Value>
  {
    if Truthy(Get(Element(images, index), "path")) && reply.Failed? then images else Spliced(images, index)
  }

  /** The list after addImages(newImages). */
  function Added(images: seq<Value>, newImages: seq<Value>): seq<Value>
  {
    if |images| + |newImages| > MAX_IMAGES then images else images + newImages
  }

  /** `{ url, path, file: { name: file_name, size: parseInt(file_size) } }` for one stored image. */
  function StoredEntry(img: Value): (r: Value)
    requires !Nullish(img)
    ensures ObjectIs(r, ["url", "path", "file"], [Get(img, "url"), Get(img, "path"), Get(r, "file")])
    ensures ObjectIs(Get(r, "file"), ["name", "size"], [Get(img, "file_name"), ParseInt(Get(img, "file_size"))])
  {
    var size := ParseInt(Get(img, "file_size"));
    var file := JObj(["name", "size"], map["name" := Get(img, "file_name"), "size" := size]);
    assert ObjectIs(file, ["name", "size"], [Get(img, "file_name"), size]);
    JObj(["url", "path", "file"], map["url" := Get(img, "url"), "path" := Get(img, "path"), "file" := file])
  }

  /** `images.map(Entry)`; reading a field of a null or undefined element throws. */
  function StoredEntries(images: seq<Value>): (r: Completion<seq<Value>>)
    ensures r.Normal? <==> forall i :: 0 <= i < |images| ==> !Nullish(images[i])
    ensures r.Normal? ==> |r.value| == |images|
    ensures r.Normal? ==> forall i :: 0 <= i < |images| ==> r.value[i] == StoredEntry(images[i])
    ensures r.Throw? ==> r == Throw(TYPE_ERROR)
  {
    if |images| == 0 then Normal([])
    else if Nullish(images[0]) then Throw(TYPE_ERROR)
    else
      match StoredEntries(images[1..])
      case Throw(t) => Throw(t)
      case Normal(rest) => Normal([StoredEntry(images[0])] + rest)
  }

  /** A stored size of `String(n)` reads back as the number `n`. */
  lemma EntrySizeOfNumber(img: Value, n: int)
    requires !Nullish(img) && Get(img, "file_size") == JStr(IntToString(n))
    ensures Get(Get(StoredEntry(img), "file"), "size") == JNum(n)
  {
    ParseIntOfNumber(n);
  }

  /** One store operation, with the outcome of the network call where it makes one. */
  datatype Op = Add(newImages: seq<Value>) | Remove(index: int, reply: Outcome) | Clear

  function Apply(images: seq<Value>, op: Op): seq<Value>
  {
    match op
    case Add(newImages) => Added(images, newImages)
    case Remove(index, reply) => Removed(images, index, reply)
    case Clear => []
  }

  /** The list after the operations, in order. */
  function Replay(images: seq<Value>, ops: seq<Op>): seq<Value>
    decreases |ops|
  {
    if |ops| == 0 then images else Replay(Apply(images, ops[0]), ops[1..])
  }

  /** One operation never takes a list of at most ten images past ten. */
  lemma ApplyBounded(images: seq<Value>, op: Op)
    requires |images| <= MAX_IMAGES
    ensures |Apply(images, op)| <= MAX_IMAGES
  {
    if op.Remove? {
      var start := SpliceStart(|images|, op.index);
      if start < |images| {
        assert |images[..start] + images[start + 1..]| == |images| - 1;
      }
    }
  }

  /** From the empty store (or any store within the bound), addImages, removeImage and clearImages keep at most ten images. */
  lemma {:induction false} ReplayBounded(images: seq<Value>, ops: seq<Op>)
    requires |images| <= MAX_IMAGES
    ensures |Replay(images, ops)| <= MAX_IMAGES
    decreases |ops|
  {
    if |ops| > 0 {
      ApplyBounded(images, ops[0]);
      ReplayBounded(Apply(images, ops[0]), ops[1..]);
    }
  }

  /** setImages keeps every entry it is given: eleven well-formed images make eleven entries. */
  lemma SetImagesUnbounded(images: seq<Value>)
    requires |images| == MAX_IMAGES + 1
    requires forall i :: 0 <= i < |images| ==> images[i].JObj?
    ensures StoredEntries(images).Normal? && |StoredEntries(images).value| > MAX_IMAGES
  {
  }

  class Store {
    var images: seq<Value>

    constructor()
      ensures images == []
    {
      images := [];
    }

    /**
     * removeImage(index): an image with a `path` is first deleted on the
     * server (`POST /products/image-delete` with `{ path }`); if that fails,
     * the result is false and the list is kept. Otherwise the list loses the
     * element `splice(index, 1)` selects.
     */
    method RemoveImage(index: int, reply: Outcome) returns (sent: Option<Request>, r: Value)
      modifies this
      ensures var path := Get(Element(old(images), index), "path");
              && (Truthy(path) <==> sent.Some?)
              && (Truthy(path) ==>
                    sent == Some(Request(POST, "/products/image-delete", JUndef, JObj(["path"], map["path" := path]))))
              && (Truthy(path) && reply.Failed? ==> r == JBool(false))
              && (!(Truthy(path) && reply.Failed?) ==> r == JUndef)
      ensures images == Removed(old(images), index, reply)
    {
      var image := Element(images, index);
      sent := None;
      r := JUndef;
      if Truthy(Get(image, "path")) {
        sent := Some(Request(POST, "/products/image-delete", JUndef, JObj(["path"], map["path" := Get(image, "path")])));
        if reply.Failed? {
          r := JBool(false);
          return;
        }
      }
      var start := SpliceStart(|images|, index);
      if start < |images| {
        images := images[..start] + images[start + 1..];
      }
    }

    /** addImages: append in order, unless the list would pass ten; then throw and keep the list. */
    method AddImages(newImages: seq<Value>) returns (r: Completion<Value>)
      modifies this
      ensures |old(images)| + |newImages| > MAX_IMAGES ==> r == Throw(NewError(JStr(TOO_MANY))) && images == old(images)
      ensures |old(images)| + |newImages| <= MAX_IMAGES ==> r == Normal(JUndef) && images == old(images) + newImages
      ensures images == Added(old(images), newImages)
    {
      if |images| + |newImages| > MAX_IMAGES {
        return Throw(NewError(JStr(TOO_MANY)));
      }
      var i := 0;
      while i < |newImages|
        invariant 0 <= i <= |newImages|
        invariant images == old(images) + newImages[..i]
      {
        images := images + [newImages[i]];
        i := i + 1;
      }
      assert newImages[..i] == newImages;
      return Normal(JUndef);
    }

    /** clearImages */
    method ClearImages()
      modifies this
      ensures images == []
    {
      images := [];
    }

    /** setImages: replace the list by one entry per given image, in order; no bound is checked. */
    method SetImages(given: seq<Value>) returns (r: Completion<Value>)
      modifies this
      ensures StoredEntries(given).Normal? ==> r == Normal(JUndef) && images == StoredEntries(given).value
      ensures StoredEntries(given).Throw? ==> r == Throw(TYPE_ERROR) && images == old(images)
    {
      match StoredEntries(given) {
        case Throw(t) => r := Throw(t);
        case Normal(entries) =>
          images := entries;
          r := Normal(JUndef);
      }
    }
  }
}
