/** The two data layers, `MassvisTrainDataLayerBubble` and `MassvisDataLayerBubble`, as
    one class parameterised by the directories it reads. The host framework drives it:
    `Setup` once, then rounds of `Reshape` (load the pair the cursor points at) and
    `Forward` (hand the pair over and move the cursor). */
module DataLayer {
  import opened Wrappers
  import opened Arrays
  import opened ImageLayout
  import opened LabelLayout
  import opened Cursor

  /** Which of the two layer classes: they differ only in the directories they read. */
  datatype Variant = Training | Validation {
    /** Directory of the input images below `massvis/`. */
    function ImageDir(): string { if Training? then "train" else "valid" }

    /** Directory of the importance maps below `massvis/`. */
    function LabelDir(): string { if Training? then "train_imp" else "valid_imp" }
  }

  /** The exceptions the layers raise. */
  datatype LayerError =
    | WrongTopCount(tops: nat)          // "Need to define two tops: data and label."
    | BottomDefined(bottoms: nat)       // "Do not define a bottom."
    | EmptyRange                        // random.randint(0, -1) on an empty listing
    | IndexOutOfRange(idx: nat)         // indices[idx] past the end of the listing
    | MissingImage(id: string)          // no such image file
    | MissingLabel(id: string)          // no such importance-map file
    | BadMean(cause: ImageError)        // the mean does not broadcast onto the image

  /** The decoded files the layer can open, keyed by (directory, identifier). */
  datatype Store = Store(images: map<(string, string), RawImage>,
                         labels: map<(string, string), Array2<Byte>>) {
    predicate Valid() {
      && (forall key :: key in images ==> images[key].Valid())
      && (forall key :: key in labels ==> labels[key].Valid())
    }
  }

  class Layer {
    const variant: Variant
    var split: string
    var mean: seq<int>
    var random: bool
    var binarize: bool
    var indices: seq<string>
    var idx: nat
    var data: Array3<int>
    var importance: Label  // `self.label`

    /** The cursor points into the listing whenever the listing has entries. */
    ghost predicate Valid()
      reads this
    {
      indices == [] || idx < |indices|
    }

    /** A layer the host has created but not yet set up. */
    constructor (variant: Variant)
      ensures Valid() && this.variant == variant
      ensures split == [] && mean == [] && !random && !binarize
      ensures indices == [] && idx == 0
      ensures data == Array3(0, 0, 0, []) && importance == Mask(Array3(0, 0, 0, []))
    {
      this.variant := variant;
      split, mean, random, binarize := [], [], false, false;
      indices, idx := [], 0;
      data, importance := Array3(0, 0, 0, []), Mask(Array3(0, 0, 0, []));
    }

    /** `setup`: store the configuration, check the wiring, take the index listing and
        place the cursor, at 0 in sequential mode and anywhere in the listing in random
        mode. The configuration is stored before the wiring is checked, as in the
        Python layer, so a rejected setup still changes it. */
    method Setup(split: string, randomize: bool, binarize: bool, mean: seq<int>,
                 tops: nat, bottoms: nat, listing: seq<string>) returns (r: Outcome<LayerError>)
      requires Valid()
      modifies this
      ensures Valid()
      ensures this.split == split && this.mean == mean && this.binarize == binarize
      ensures data == old(data) && importance == old(importance)
      ensures tops != 2 ==>
                r == Fail(WrongTopCount(tops))
                && random == randomize && indices == old(indices) && idx == old(idx)
      ensures tops == 2 && bottoms != 0 ==>
                r == Fail(BottomDefined(bottoms))
                && random == randomize && indices == old(indices) && idx == old(idx)
      ensures tops == 2 && bottoms == 0 ==>
                && indices == listing
                && random == RandomMode(split, randomize)
                && (!random ==> r == Pass && idx == 0)
                && (random && listing == [] ==> r == Fail(EmptyRange) && idx == 0)
                && (random && listing != [] ==> r == Pass && idx < |listing|)
    {
      this.split := split;
      this.mean := mean;
      random := randomize;
      this.binarize := binarize;
      if tops != 2 {
        return Fail(WrongTopCount(tops));
      }
      if bottoms != 0 {
        return Fail(BottomDefined(bottoms));
      }
      indices := listing;
      idx := 0;
      if !Contains(split, "train") {
        random := false;
      }
      r := Pass;
      if random {
        r := PickAny();
      }
    }

    /** `random.randint(0, len(indices) - 1)`: any position of the listing; the
        generator itself is not modelled. An empty listing raises. */
    method PickAny() returns (r: Outcome<LayerError>)
      requires Valid()
      modifies this`idx
      ensures Valid()
      ensures indices == [] ==> r == Fail(EmptyRange) && idx == old(idx)
      ensures indices != [] ==> r == Pass && idx < |indices|
    {
      if indices == [] {
        return Fail(EmptyRange);
      }
      var k: nat :| k < |indices|;
      idx := k;
      r := Pass;
    }

    /** `reshape`: load the image and the importance map of the identifier the cursor
        points at. The image is stored before the map is opened, so a missing map leaves
        the new image in place. */
    method Reshape(store: Store) returns (r: Outcome<LayerError>)
      requires Valid() && store.Valid()
      modifies this`data, this`importance
      ensures idx >= |indices| ==>
                r == Fail(IndexOutOfRange(idx)) && data == old(data) && importance == old(importance)
      ensures idx < |indices| ==>
                var id := indices[idx];
                var imageKey, labelKey := (variant.ImageDir(), id), (variant.LabelDir(), id);
                if imageKey !in store.images then
                  r == Fail(MissingImage(id)) && data == old(data) && importance == old(importance)
                else if LoadImage(store.images[imageKey], mean).Failure? then
                  r == Fail(BadMean(LoadImage(store.images[imageKey], mean).error))
                  && data == old(data) && importance == old(importance)
                else if labelKey !in store.labels then
                  r == Fail(MissingLabel(id))
                  && data == LoadImage(store.images[imageKey], mean).value && importance == old(importance)
                else
                  r == Pass
                  && data == LoadImage(store.images[imageKey], mean).value
                  && importance == LoadLabel(store.labels[labelKey], binarize)
    {
      if idx >= |indices| {
        return Fail(IndexOutOfRange(idx));
      }
      var id := indices[idx];
      var imageKey := (variant.ImageDir(), id);
      if imageKey !in store.images {
        return Fail(MissingImage(id));
      }
      var image := LoadImage(store.images[imageKey], mean);
      if image.Failure? {
        return Fail(BadMean(image.error));
      }
      data := image.value;
      var labelKey := (variant.LabelDir(), id);
      if labelKey !in store.labels {
        return Fail(MissingLabel(id));
      }
      importance := LoadLabel(store.labels[labelKey], binarize);
      r := Pass;
    }

    /** `forward`: hand the loaded pair to the two tops, then move the cursor, to any
        position in random mode and one step along the listing, wrapping to 0,
        otherwise. Nothing but the cursor changes. */
    method Forward() returns (top0: Array3<int>, top1: Label, r: Outcome<LayerError>)
      requires Valid()
      modifies this`idx
      ensures Valid()
      ensures top0 == data && top1 == importance
      ensures random ==>
                && (indices == [] ==> r == Fail(EmptyRange) && idx == old(idx))
                && (indices != [] ==> r == Pass && idx < |indices|)
      ensures !random ==> r == Pass && idx == Next(old(idx), |indices|)
    {
      top0, top1 := data, importance;
      if random {
        r := PickAny();
      } else {
        idx := idx + 1;
        if idx == |indices| {
          idx := 0;
        }
        r := Pass;
      }
    }
  }

  /** A host round in sequential mode from a set-up layer: `Reshape`, then `Forward`
      only if the reshape succeeded. On success the pair handed over is the stored pair,
      loaded for the entry at the cursor, and the cursor moves one step on. A failed
      reshape raises before `forward` runs, so the cursor stays and `top0`, `top1` carry
      nothing handed to the network. */
  method SequentialRound(layer: Layer, store: Store)
      returns (id: string, top0: Array3<int>, top1: Label, r: Outcome<LayerError>)
    requires layer.Valid() && store.Valid() && !layer.random && layer.indices != []
    modifies layer`data, layer`importance, layer`idx
    ensures layer.Valid()
    ensures id == layer.indices[old(layer.idx)]
    ensures r != Pass ==> layer.idx == old(layer.idx)
    ensures r == Pass ==>
              && layer.idx == Next(old(layer.idx), |layer.indices|)
              && (layer.variant.ImageDir(), id) in store.images
              && (layer.variant.LabelDir(), id) in store.labels
              && LoadImage(store.images[(layer.variant.ImageDir(), id)], layer.mean).Success?
              && top0 == layer.data
              && top1 == layer.importance
              && top0 == LoadImage(store.images[(layer.variant.ImageDir(), id)], layer.mean).value
              && top1 == LoadLabel(store.labels[(layer.variant.LabelDir(), id)], layer.binarize)
  {
    id := layer.indices[layer.idx];
    top0, top1 := layer.data, layer.importance;
    r := layer.Reshape(store);
    if r != Pass {
      return;
    }
    var moved;
    top0, top1, moved := layer.Forward();
  }
}
