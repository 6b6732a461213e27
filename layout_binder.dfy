/** The view-binding loop of `showLayoutNotification`: every entry of `viewData` names a view
    inside the layout by its resource-id name and carries the properties to apply to it.

    The `RemoteViews` setters become `ViewOp` records; the list of records, in the order the
    setters are called, is the bound view. Resource lookup, dp-to-pixel conversion and bitmap
    decoding belong to the Android framework and are parameters here. */
module LayoutBinder {
  import opened Values

  /** The resource types the plugin looks names up in (`"layout"`, `"id"`, `"drawable"`). */
  datatype ResourceKind = Layout | Id | Drawable

  /** The application's resource table; a name not in it has no identifier. */
  type Resources = map<(ResourceKind, string), int>

  /** `Resources.getIdentifier(name, kind, packageName)`, where 0 means "not found". */
  function Lookup(res: Resources, kind: ResourceKind, name: string): (id: int)
    ensures id != 0 <==> (kind, name) in res && res[(kind, name)] != 0
    ensures id != 0 ==> id == res[(kind, name)]
  {
    if (kind, name) in res then res[(kind, name)] else 0
  }

  /** A decoded bitmap, known only by a handle. */
  datatype Bitmap = Bitmap(handle: nat)

  /** The framework services the binder uses: `TypedValue.applyDimension(COMPLEX_UNIT_DIP, _,
      displayMetrics)` and `BitmapFactory.decodeByteArray`, which yields null on bytes that
      are not an image. */
  datatype Platform = Platform(toPx: real -> real, decode: seq<bv8> -> Option<Bitmap>)

  /** One `RemoteViews` setter call on the view with resource id `id`. */
  datatype ViewOp =
    | SetTranslationX(id: int, px: real)
    | SetTranslationY(id: int, px: real)
    | SetText(id: int, text: string)
    | SetTextColor(id: int, color: int32)
    | SetTextSize(id: int, size: real)
    /** `setImageViewBitmap` with `Bitmap.createScaledBitmap(source, width, height, true)`. */
    | SetScaledImage(id: int, source: Bitmap, width: int32, height: int32)
    /** `setImageViewBitmap` with the decode result as it is, null included. */
    | SetRawImage(id: int, bitmap: Option<Bitmap>)

  /** The properties for one view, as sent: keys `x`, `y`, `type`, `text`, `textColor`,
      `textSize`, `imageBytes`, `width`, `height`. */
  type ViewData = map<string, Value>

  /** One entry of the `viewData` map: the view-id name and its properties. */
  type Entry = (string, ViewData)

  /** `x` and `y`, when they are numbers, become translations converted from dp to pixels. */
  function TranslationOps(id: int, data: ViewData, toPx: real -> real): (ops: seq<ViewOp>)
    ensures forall i :: 0 <= i < |ops| ==> ops[i].id == id && (ops[i].SetTranslationX? || ops[i].SetTranslationY?)
    ensures IsNumber(Get(data, "x")) ==> SetTranslationX(id, toPx(NumberToFloat(Get(data, "x")))) in ops
    ensures !IsNumber(Get(data, "x")) ==> forall i :: 0 <= i < |ops| ==> !ops[i].SetTranslationX?
    ensures IsNumber(Get(data, "y")) ==> SetTranslationY(id, toPx(NumberToFloat(Get(data, "y")))) in ops
    ensures !IsNumber(Get(data, "y")) ==> forall i :: 0 <= i < |ops| ==> !ops[i].SetTranslationY?
    ensures |ops| == (if IsNumber(Get(data, "x")) then 1 else 0) + (if IsNumber(Get(data, "y")) then 1 else 0)
  {
    var x := Get(data, "x");
    var y := Get(data, "y");
    (if IsNumber(x) then [SetTranslationX(id, toPx(NumberToFloat(x)))] else [])
    + (if IsNumber(y) then [SetTranslationY(id, toPx(NumberToFloat(y)))] else [])
  }

  /** A `textView` takes its text when it is a string, its colour when it is a number
      (narrowed to `Int`) and its size when it is a number, as given and not converted. */
  function TextOps(id: int, data: ViewData): (ops: seq<ViewOp>)
    ensures forall i :: 0 <= i < |ops| ==> ops[i].id == id && (ops[i].SetText? || ops[i].SetTextColor? || ops[i].SetTextSize?)
    ensures Get(data, "text").StringV? ==> SetText(id, Get(data, "text").s) in ops
    ensures !Get(data, "text").StringV? ==> forall i :: 0 <= i < |ops| ==> !ops[i].SetText?
    ensures IsNumber(Get(data, "textColor")) ==> SetTextColor(id, NumberToInt(Get(data, "textColor"))) in ops
    ensures !IsNumber(Get(data, "textColor")) ==> forall i :: 0 <= i < |ops| ==> !ops[i].SetTextColor?
    ensures IsNumber(Get(data, "textSize")) ==> SetTextSize(id, NumberToFloat(Get(data, "textSize"))) in ops
    ensures !IsNumber(Get(data, "textSize")) ==> forall i :: 0 <= i < |ops| ==> !ops[i].SetTextSize?
    ensures |ops| == (if Get(data, "text").StringV? then 1 else 0)
                     + (if IsNumber(Get(data, "textColor")) then 1 else 0)
                     + (if IsNumber(Get(data, "textSize")) then 1 else 0)
  {
    var text := Get(data, "text");
    var color := Get(data, "textColor");
    var size := Get(data, "textSize");
    (if text.StringV? then [SetText(id, text.s)] else [])
    + (if IsNumber(color) then [SetTextColor(id, NumberToInt(color))] else [])
    + (if IsNumber(size) then [SetTextSize(id, NumberToFloat(size))] else [])
  }

  /** Bytes, width and height all present: the scaled path, with both dimensions converted
      from dp to whole pixels. */
  predicate TakesScaledPath(data: ViewData) {
    Get(data, "imageBytes").BytesV? && IsNumber(Get(data, "width")) && IsNumber(Get(data, "height"))
  }

  /** The pixel size the scaled path asks for. */
  function ScaledSize(data: ViewData, toPx: real -> real): (int32, int32)
    requires TakesScaledPath(data)
  {
    (TruncToInt32(toPx(NumberToFloat(Get(data, "width")))),
     TruncToInt32(toPx(NumberToFloat(Get(data, "height")))))
  }

  /** An `imageView`: the scaled path when bytes, width and height are all present, which
      sets nothing when decoding fails; the unscaled fallback when only the bytes are there,
      which passes the decode result on unchecked; nothing without bytes. */
  function ImageOps(id: int, data: ViewData, p: Platform): (ops: seq<ViewOp>)
    ensures |ops| <= 1
    ensures forall i :: 0 <= i < |ops| ==> ops[i].id == id
    ensures !Get(data, "imageBytes").BytesV? ==> ops == []
    ensures TakesScaledPath(data) ==>
      (ops == [] <==> p.decode(Get(data, "imageBytes").bytes).None?)
    ensures TakesScaledPath(data) && ops != [] ==>
      ops[0] == SetScaledImage(id, p.decode(Get(data, "imageBytes").bytes).value,
                               ScaledSize(data, p.toPx).0, ScaledSize(data, p.toPx).1)
    ensures Get(data, "imageBytes").BytesV? && !TakesScaledPath(data) ==>
      ops == [SetRawImage(id, p.decode(Get(data, "imageBytes").bytes))]
  {
    var bytes := Get(data, "imageBytes");
    if TakesScaledPath(data) then
      var (w, h) := ScaledSize(data, p.toPx);
      match p.decode(bytes.bytes)
      case Some(bitmap) => [SetScaledImage(id, bitmap, w, h)]
      case None => []
    else if bytes.BytesV? then
      [SetRawImage(id, p.decode(bytes.bytes))]
    else
      []
  }

  /** The `when (data["type"] as? String)` dispatch; any other kind is ignored. */
  function KindOps(id: int, data: ViewData, p: Platform): (ops: seq<ViewOp>)
    ensures Get(data, "type") == StringV("textView") ==> ops == TextOps(id, data)
    ensures Get(data, "type") == StringV("imageView") ==> ops == ImageOps(id, data, p)
    ensures Get(data, "type") !in {StringV("textView"), StringV("imageView")} ==> ops == []
  {
    match Get(data, "type")
    case StringV("textView") => TextOps(id, data)
    case StringV("imageView") => ImageOps(id, data, p)
    case _ => []
  }

  /** Everything one entry does: nothing when its name does not resolve; otherwise the
      translations first, whatever the kind, then the kind-specific setters. */
  function EntryOps(res: Resources, entry: Entry, p: Platform): seq<ViewOp>
  {
    var id := Lookup(res, Id, entry.0);
    if id == 0 then [] else TranslationOps(id, entry.1, p.toPx) + KindOps(id, entry.1, p)
  }

  /** An entry whose name does not resolve adds nothing; a resolved entry's setter calls
      all target its view, the translations come first, then the setters of its kind. */
  lemma EntryOpsShape(res: Resources, entry: Entry, p: Platform)
    ensures Lookup(res, Id, entry.0) == 0 ==> EntryOps(res, entry, p) == []
    ensures forall i :: 0 <= i < |EntryOps(res, entry, p)| ==>
      EntryOps(res, entry, p)[i].id == Lookup(res, Id, entry.0)
    ensures Lookup(res, Id, entry.0) != 0 ==>
      EntryOps(res, entry, p) == TranslationOps(Lookup(res, Id, entry.0), entry.1, p.toPx)
                                 + KindOps(Lookup(res, Id, entry.0), entry.1, p)
  {
  }

  /** The concatenation of `parts[lo]` to `parts[hi - 1]`, in that order. */
  function Concat(parts: seq<seq<ViewOp>>, lo: nat, hi: nat): seq<ViewOp>
    requires lo <= hi <= |parts|
    decreases hi
  {
    if lo == hi then [] else Concat(parts, lo, hi - 1) + parts[hi - 1]
  }

  /** The setter calls of each entry, entry by entry. */
  function PerEntry(res: Resources, entries: seq<Entry>, p: Platform): seq<seq<ViewOp>>
  {
    seq(|entries|, k requires 0 <= k < |entries| => EntryOps(res, entries[k], p))
  }

  /** The setter calls the loop makes for the entries `lo` to `hi - 1`. */
  function BindRange(res: Resources, entries: seq<Entry>, lo: nat, hi: nat, p: Platform): seq<ViewOp>
    requires lo <= hi <= |entries|
  {
    Concat(PerEntry(res, entries, p), lo, hi)
  }

  /** The setter calls the whole loop makes, entry after entry. */
  function BindAll(res: Resources, entries: seq<Entry>, p: Platform): seq<ViewOp> {
    BindRange(res, entries, 0, |entries|, p)
  }

  /** Every element of a concatenation comes from one of its parts. */
  lemma {:induction false} ConcatMember(parts: seq<seq<ViewOp>>, lo: nat, hi: nat, op: ViewOp)
    requires lo <= hi <= |parts|
    requires op in Concat(parts, lo, hi)
    ensures exists k :: lo <= k < hi && op in parts[k]
    decreases hi
  {
    if op !in parts[hi - 1] {
      ConcatMember(parts, lo, hi - 1, op);
    }
  }

  /** Every setter call targets a view that the name of some entry resolved to. */
  lemma BindAllTargets(res: Resources, entries: seq<Entry>, p: Platform)
    ensures forall op :: op in BindAll(res, entries, p) ==>
      op.id != 0 && exists k :: 0 <= k < |entries| && Lookup(res, Id, entries[k].0) == op.id
  {
    var parts := PerEntry(res, entries, p);
    forall op | op in BindAll(res, entries, p)
      ensures op.id != 0 && exists k :: 0 <= k < |entries| && Lookup(res, Id, entries[k].0) == op.id
    {
      ConcatMember(parts, 0, |entries|, op);
      var k :| 0 <= k < |entries| && op in parts[k];
      EntryOpsShape(res, entries[k], p);
      var i :| 0 <= i < |parts[k]| && parts[k][i] == op;
    }
  }

  /** A concatenation splits at any point into its two halves. */
  lemma {:induction false} ConcatSplit(parts: seq<seq<ViewOp>>, lo: nat, mid: nat, hi: nat)
    requires lo <= mid <= hi <= |parts|
    ensures Concat(parts, lo, hi) == Concat(parts, lo, mid) + Concat(parts, mid, hi)
    decreases hi
  {
    if mid < hi {
      ConcatSplit(parts, lo, mid, hi - 1);
      var a, b, e := Concat(parts, lo, mid), Concat(parts, mid, hi - 1), parts[hi - 1];
      assert a + b + e == a + (b + e);
    }
  }

  /** Each entry contributes its own setter calls, in one block, between those of the
      entries before it and those of the entries after it: no entry stops the loop. */
  lemma BindAllSplit(res: Resources, entries: seq<Entry>, k: nat, p: Platform)
    requires k < |entries|
    ensures BindAll(res, entries, p)
         == BindRange(res, entries, 0, k, p) + EntryOps(res, entries[k], p)
            + BindRange(res, entries, k + 1, |entries|, p)
  {
    ConcatSplit(PerEntry(res, entries, p), 0, k + 1, |entries|);
  }

  /** An entry whose name does not resolve is skipped: the calls are exactly those of the
      entries before it followed by those of the entries after it. */
  lemma UnresolvedEntrySkipped(res: Resources, entries: seq<Entry>, k: nat, p: Platform)
    requires k < |entries| && Lookup(res, Id, entries[k].0) == 0
    ensures BindAll(res, entries, p)
         == BindRange(res, entries, 0, k, p) + BindRange(res, entries, k + 1, |entries|, p)
  {
    BindAllSplit(res, entries, k, p);
  }

  /** The `x`/`y` translations of one view. */
  method ApplyTranslation(id: int, data: ViewData, toPx: real -> real) returns (ops: seq<ViewOp>)
    ensures ops == TranslationOps(id, data, toPx)
  {
    ops := [];
    var x := Get(data, "x");
    if IsNumber(x) {
      ops := ops + [SetTranslationX(id, toPx(NumberToFloat(x)))];
    }
    var y := Get(data, "y");
    if IsNumber(y) {
      ops := ops + [SetTranslationY(id, toPx(NumberToFloat(y)))];
    }
  }

  /** The `textView` branch. */
  method ApplyText(id: int, data: ViewData) returns (ops: seq<ViewOp>)
    ensures ops == TextOps(id, data)
  {
    ops := [];
    var text := Get(data, "text");
    if text.StringV? {
      ops := ops + [SetText(id, text.s)];
    }
    var color := Get(data, "textColor");
    if IsNumber(color) {
      ops := ops + [SetTextColor(id, NumberToInt(color))];
    }
    var size := Get(data, "textSize");
    if IsNumber(size) {
      ops := ops + [SetTextSize(id, NumberToFloat(size))];
    }
  }

  /** The `imageView` branch. */
  method ApplyImage(id: int, data: ViewData, p: Platform) returns (ops: seq<ViewOp>)
    ensures ops == ImageOps(id, data, p)
  {
    ops := [];
    var bytes := Get(data, "imageBytes");
    var width := Get(data, "width");
    var height := Get(data, "height");
    if bytes.BytesV? && IsNumber(width) && IsNumber(height) {
      var widthPx := TruncToInt32(p.toPx(NumberToFloat(width)));
      var heightPx := TruncToInt32(p.toPx(NumberToFloat(height)));
      var original := p.decode(bytes.bytes);
      if original.Some? {
        ops := ops + [SetScaledImage(id, original.value, widthPx, heightPx)];
      }
    } else if bytes.BytesV? {
      ops := ops + [SetRawImage(id, p.decode(bytes.bytes))];
    }
  }

  /** One turn of the binding loop: the setter calls made for one entry, in source order. */
  method BindEntry(res: Resources, entry: Entry, p: Platform) returns (ops: seq<ViewOp>)
    ensures ops == EntryOps(res, entry, p)
  {
    var (name, data) := entry;
    var id := Lookup(res, Id, name);
    if id == 0 {
      return [];
    }
    ops := ApplyTranslation(id, data, p.toPx);
    var kind := Get(data, "type");
    if kind == StringV("textView") {
      var textOps := ApplyText(id, data);
      ops := ops + textOps;
    } else if kind == StringV("imageView") {
      var imageOps := ApplyImage(id, data, p);
      ops := ops + imageOps;
    }
  }

  /** The binding loop over `viewData`: an entry whose name does not resolve adds nothing,
      and the loop goes on with the next one. */
  method BindViews(res: Resources, entries: seq<Entry>, p: Platform) returns (ops: seq<ViewOp>)
    ensures ops == BindAll(res, entries, p)
  {
    ops := [];
    var i := 0;
    while i < |entries|
      invariant 0 <= i <= |entries|
      invariant ops == BindRange(res, entries, 0, i, p)
    {
      var entryOps := BindEntry(res, entries[i], p);
      ops := ops + entryOps;
      i := i + 1;
    }
  }
}
