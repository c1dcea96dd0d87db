/**
  Style merging of the animation coordinator: `mergeStylesObjects` and
  `mergeStylesFunctions` (src/core/hooks/useAnimationAPI.ts).

  A style object is modelled by its three kinds of keys: `opacity`, which the
  merge overrides like any key but which the base always sets; `transform`,
  whose lists the merge concatenates; and every other key, kept in a map and
  overridden key by key. An absent key is `None` (or missing from the map), so
  a style function that returns `undefined` returns `EmptyStyle`.
*/
module StyleMerge {
  import opened Wrappers

  /** The value of a style key that the merge treats as opaque. */
  datatype StyleValue = Number(n: real) | Text(s: string)

  /** One element of a `transform` list, such as `{ translateY: 0 }`. */
  datatype TransformEntry = TransformEntry(property: string, value: StyleValue)

  datatype Style = Style(
    opacity: Option<real>,
    others: map<string, StyleValue>,
    transform: Option<seq<TransformEntry>>)

  /** A style producer: `TransitionStylesConfigFunction`, applied to the progress value. */
  type StyleFunction = real -> Style

  const EmptyStyle: Style := Style(None, map[], None)

  /** The base of every fold: `{ opacity: 1, transform: [{ translateY: 0 }, { translateX: 0 }] }`. */
  const BaseTransform: seq<TransformEntry> :=
    [TransformEntry("translateY", Number(0.0)), TransformEntry("translateX", Number(0.0))]
  const Base: Style := Style(Some(1.0), map[], Some(BaseTransform))

  /** A style object: `opacity` and `transform` are never among the other keys. */
  predicate WellFormed(s: Style) {
    "opacity" !in s.others && "transform" !in s.others
  }

  /** `styles?.transform || []`: a missing transform counts as the empty list. */
  function TransformList(s: Style): seq<TransformEntry> {
    s.transform.GetOr([])
  }

  /**
    `mergeStylesObjects(styles, newStyles)`: a shallow merge in which every key of
    `newStyles` wins, except `transform`, whose lists are concatenated old-then-new.
  */
  function MergeObjects(styles: Style, newStyles: Style): (r: Style)
    ensures r.transform == Some(TransformList(styles) + TransformList(newStyles))
    ensures newStyles.opacity.Some? ==> r.opacity == newStyles.opacity
    ensures newStyles.opacity.None? ==> r.opacity == styles.opacity
    ensures r.others.Keys == styles.others.Keys + newStyles.others.Keys
    ensures forall k :: k in newStyles.others ==> r.others[k] == newStyles.others[k]
    ensures forall k :: k in styles.others && k !in newStyles.others ==> r.others[k] == styles.others[k]
    ensures WellFormed(styles) && WellFormed(newStyles) ==> WellFormed(r)
  {
    Style(
      if newStyles.opacity.Some? then newStyles.opacity else styles.opacity,
      styles.others + newStyles.others,
      Some(TransformList(styles) + TransformList(newStyles)))
  }

  /** `outputs.reduce(mergeStylesObjects, acc)`: a left fold. */
  function FoldStyles(acc: Style, outputs: seq<Style>): Style
    decreases |outputs|
  {
    if outputs == [] then acc else FoldStyles(MergeObjects(acc, outputs[0]), outputs[1..])
  }

  /** Folding well-formed styles yields a well-formed style. */
  lemma {:induction false} FoldWellFormed(acc: Style, outputs: seq<Style>)
    ensures WellFormed(acc) && (forall i :: 0 <= i < |outputs| ==> WellFormed(outputs[i])) ==>
      WellFormed(FoldStyles(acc, outputs))
    decreases |outputs|
  {
    if outputs != [] {
      var rest := outputs[1..];
      FoldWellFormed(MergeObjects(acc, outputs[0]), rest);
      assert forall j :: 0 <= j < |rest| ==> rest[j] == outputs[j + 1];
    }
  }

  /** The style each function produces for the given progress, in call order. */
  function Outputs(fs: seq<StyleFunction>, progress: real): (outs: seq<Style>)
    ensures |outs| == |fs|
    ensures forall i :: 0 <= i < |fs| ==> outs[i] == fs[i](progress)
  {
    seq(|fs|, i requires 0 <= i < |fs| => fs[i](progress))
  }

  /** The transform entries of `outputs`, one list after the other. */
  function Concat(outputs: seq<Style>): seq<TransformEntry> {
    if outputs == [] then [] else TransformList(outputs[0]) + Concat(outputs[1..])
  }

  /** The number of transform entries supplied by `outputs`. */
  function TransformCount(outputs: seq<Style>): nat {
    if outputs == [] then 0 else |TransformList(outputs[0])| + TransformCount(outputs[1..])
  }

  /** The transform of a fold is the accumulator's followed by every output's, in order. */
  lemma {:induction false} FoldTransform(acc: Style, outputs: seq<Style>)
    ensures TransformList(FoldStyles(acc, outputs)) == TransformList(acc) + Concat(outputs)
    ensures acc.transform.Some? ==> FoldStyles(acc, outputs).transform.Some?
    decreases |outputs|
  {
    if outputs != [] {
      var next := MergeObjects(acc, outputs[0]);
      FoldTransform(next, outputs[1..]);
      calc {
        TransformList(FoldStyles(acc, outputs));
        TransformList(next) + Concat(outputs[1..]);
        (TransformList(acc) + TransformList(outputs[0])) + Concat(outputs[1..]);
        TransformList(acc) + (TransformList(outputs[0]) + Concat(outputs[1..]));
        TransformList(acc) + Concat(outputs);
      }
    }
  }

  /** The concatenated transform holds exactly as many entries as the outputs supply. */
  lemma {:induction false} ConcatLength(outputs: seq<Style>)
    ensures |Concat(outputs)| == TransformCount(outputs)
  {
    if outputs != [] {
      ConcatLength(outputs[1..]);
    }
  }

  /**
    Call order: entry `j` of output `i` sits in the concatenation right after the
    entries of the outputs before `i`.
  */
  lemma {:induction false} ConcatAt(outputs: seq<Style>, i: nat, j: nat)
    requires i < |outputs| && j < |TransformList(outputs[i])|
    ensures TransformCount(outputs[..i]) + j < |Concat(outputs)|
    ensures Concat(outputs)[TransformCount(outputs[..i]) + j] == TransformList(outputs[i])[j]
  {
    ConcatLength(outputs);
    if i == 0 {
      assert outputs[..0] == [];
    } else {
      var rest := outputs[1..];
      ConcatAt(rest, i - 1, j);
      assert outputs[..i][1..] == rest[..i - 1];
      assert rest[i - 1] == outputs[i];
    }
  }

  /** Output `i` sets `opacity` and no later output does. */
  predicate LastOpacitySupplier(outputs: seq<Style>, i: int) {
    && 0 <= i < |outputs|
    && outputs[i].opacity.Some?
    && forall j :: i < j < |outputs| ==> outputs[j].opacity.None?
  }

  /** Output `i` sets key `k` and no later output does. */
  predicate LastKeySupplier(outputs: seq<Style>, k: string, i: int) {
    && 0 <= i < |outputs|
    && k in outputs[i].others
    && forall j :: i < j < |outputs| ==> k !in outputs[j].others
  }

  /**
    The opacity of a fold: the accumulator's when no output supplies one, and
    otherwise the value of the last output that does.
  */
  lemma {:induction false} FoldOpacity(acc: Style, outputs: seq<Style>)
    ensures (forall i :: 0 <= i < |outputs| ==> outputs[i].opacity.None?) ==>
      FoldStyles(acc, outputs).opacity == acc.opacity
    ensures forall i :: LastOpacitySupplier(outputs, i) ==>
      FoldStyles(acc, outputs).opacity == outputs[i].opacity
    ensures acc.opacity.Some? ==> FoldStyles(acc, outputs).opacity.Some?
    decreases |outputs|
  {
    if outputs != [] {
      var next := MergeObjects(acc, outputs[0]);
      var rest := outputs[1..];
      FoldOpacity(next, rest);
      assert forall j :: 0 <= j < |rest| ==> rest[j] == outputs[j + 1];
      forall i | LastOpacitySupplier(outputs, i)
        ensures FoldStyles(acc, outputs).opacity == outputs[i].opacity
      {
        if i > 0 {
          assert rest[i - 1] == outputs[i];
        }
      }
    }
  }

  /** A non-transform key is present after a fold iff the accumulator or some output has it. */
  lemma {:induction false} FoldKeys(acc: Style, outputs: seq<Style>)
    ensures forall k :: k in FoldStyles(acc, outputs).others <==>
      k in acc.others || exists i :: 0 <= i < |outputs| && k in outputs[i].others
    decreases |outputs|
  {
    if outputs != [] {
      var rest := outputs[1..];
      FoldKeys(MergeObjects(acc, outputs[0]), rest);
      forall k | k in FoldStyles(acc, outputs).others
        ensures k in acc.others || exists i :: 0 <= i < |outputs| && k in outputs[i].others
      {
        if k !in acc.others && k !in outputs[0].others {
          var i :| 0 <= i < |rest| && k in rest[i].others;
          assert k in outputs[i + 1].others;
        }
      }
      forall k | exists i :: 0 <= i < |outputs| && k in outputs[i].others
        ensures k in FoldStyles(acc, outputs).others
      {
        var i :| 0 <= i < |outputs| && k in outputs[i].others;
        if i > 0 {
          assert k in rest[i - 1].others;
        }
      }
    }
  }

  /**
    The value of a non-transform key after a fold is that of the last output
    supplying it, or the accumulator's when no output does.
  */
  lemma {:induction false} FoldValues(acc: Style, outputs: seq<Style>)
    ensures forall k :: k in acc.others && (forall i :: 0 <= i < |outputs| ==> k !in outputs[i].others) ==>
      k in FoldStyles(acc, outputs).others && FoldStyles(acc, outputs).others[k] == acc.others[k]
    ensures forall k, i :: LastKeySupplier(outputs, k, i) ==>
      k in FoldStyles(acc, outputs).others && FoldStyles(acc, outputs).others[k] == outputs[i].others[k]
    decreases |outputs|
  {
    if outputs != [] {
      var rest := outputs[1..];
      FoldValues(MergeObjects(acc, outputs[0]), rest);
      assert forall j :: 0 <= j < |rest| ==> rest[j] == outputs[j + 1];
      forall k, i | LastKeySupplier(outputs, k, i)
        ensures k in FoldStyles(acc, outputs).others && FoldStyles(acc, outputs).others[k] == outputs[i].others[k]
      {
        if i > 0 {
          assert rest[i - 1] == outputs[i];
        }
      }
    }
  }

  /**
    `mergeStylesFunctions(fs, progress)`: the styles of `fs` folded, in call
    order, over `Base`.
  */
  function MergeFunctions(fs: seq<StyleFunction>, progress: real): (r: Style)
    ensures fs == [] ==> r == Base
    ensures r.transform == Some(BaseTransform + Concat(Outputs(fs, progress)))
    ensures |r.transform.value| == 2 + TransformCount(Outputs(fs, progress))
    ensures r.opacity.Some?
    ensures (forall i :: 0 <= i < |fs| ==> fs[i](progress).opacity.None?) ==> r.opacity == Some(1.0)
    ensures forall i :: LastOpacitySupplier(Outputs(fs, progress), i) ==>
      r.opacity == fs[i](progress).opacity
    ensures forall k :: k in r.others <==> exists i :: 0 <= i < |fs| && k in fs[i](progress).others
    ensures forall k, i :: LastKeySupplier(Outputs(fs, progress), k, i) ==>
      k in r.others && r.others[k] == fs[i](progress).others[k]
    ensures (forall i :: 0 <= i < |fs| ==> WellFormed(fs[i](progress))) ==> WellFormed(r)
  {
    var outs := Outputs(fs, progress);
    FoldKeys(Base, outs);
    FoldValues(Base, outs);
    FoldWellFormed(Base, outs);
    FoldTransform(Base, outs);
    ConcatLength(outs);
    FoldOpacity(Base, outs);
    FoldStyles(Base, outs)
  }
}
