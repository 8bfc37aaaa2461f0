/**
 * The style store and the style applicator: the baseline snapshot taken at
 * start-up and the effect of `applyStyles(element, styles)` on the element's
 * inline style, both as values.
 */
module Styles {
  import opened Wrappers

  /** An element's inline style, or a configured style set: property name to value. */
  type StyleMap = map<string, string>

  /** The properties of the baseline snapshot. */
  const BaselineKeys: set<string> :=
    {"color", "backgroundColor", "border", "borderRadius", "transition", "rotate"}

  /** Reading an inline-style property that was never written yields the empty string. */
  function Read(style: StyleMap, p: string): string {
    if p in style then style[p] else ""
  }

  /**
   * The snapshot taken once at start-up. Five entries copy the property of the
   * same name; the entry named `rotate` holds the element's `transform`.
   */
  function CaptureBaseline(style: StyleMap): (b: StyleMap)
    ensures b.Keys == BaselineKeys
    ensures forall p :: p in b && p != "rotate" ==> b[p] == Read(style, p)
    ensures b["rotate"] == Read(style, "transform")
  {
    map[
      "color" := Read(style, "color"),
      "backgroundColor" := Read(style, "backgroundColor"),
      "border" := Read(style, "border"),
      "borderRadius" := Read(style, "borderRadius"),
      "transition" := Read(style, "transition"),
      "rotate" := Read(style, "transform")]
  }

  /**
   * What applying `styles` writes to property `p`, if anything: the configured
   * value when it is non-empty, else the baseline value. An empty entry with no
   * baseline value assigns `undefined`; the model treats that as writing
   * nothing.
   */
  function Written(base: StyleMap, styles: StyleMap, p: string): Option<string> {
    if p !in styles then None
    else if styles[p] != "" then Some(styles[p])
    else if p in base then Some(base[p])
    else None
  }

  /** The inline style after `applyStyles(element, styles)` when the element had `style`. */
  function Applied(style: StyleMap, base: StyleMap, styles: StyleMap): StyleMap {
    map p | p in style.Keys + styles.Keys && (p in style || Written(base, styles, p).Some?) ::
      match Written(base, styles, p)
      case Some(v) => v
      case None => style[p]
  }

  /** `styles` cut down to the properties in `done`. */
  function Restrict(styles: StyleMap, done: set<string>): (r: StyleMap)
    ensures r.Keys == styles.Keys * done
    ensures forall p :: p in r ==> r[p] == styles[p]
  {
    map p | p in styles && p in done :: styles[p]
  }

  /**
   * applyStyles writes exactly the properties present in the style set: a
   * non-empty value is copied, an empty value becomes the baseline value, and
   * every other property keeps its value.
   */
  lemma AppliedWrites(style: StyleMap, base: StyleMap, styles: StyleMap, p: string)
    ensures p in styles && styles[p] != "" ==>
      p in Applied(style, base, styles) && Applied(style, base, styles)[p] == styles[p]
    ensures p in styles && styles[p] == "" && p in base ==>
      p in Applied(style, base, styles) && Applied(style, base, styles)[p] == base[p]
    ensures p !in styles || (styles[p] == "" && p !in base) ==>
      (p in Applied(style, base, styles) <==> p in style) &&
      (p in style ==> Applied(style, base, styles)[p] == style[p])
  {
  }

  /**
   * Applying a set that is empty or equal to the baseline on every baseline
   * property leaves every baseline property at its captured value, whatever
   * the style was before; nothing outside the set is touched.
   */
  lemma RevertRestoresBaseline(style: StyleMap, base: StyleMap, revert: StyleMap)
    requires base.Keys <= revert.Keys
    requires forall p :: p in base ==> revert[p] == "" || revert[p] == base[p]
    ensures forall p :: p in base ==>
      p in Applied(style, base, revert) && Applied(style, base, revert)[p] == base[p]
    ensures forall p :: p !in revert && p in style ==>
      p in Applied(style, base, revert) && Applied(style, base, revert)[p] == style[p]
  {
    forall p | p in base
      ensures p in Applied(style, base, revert) && Applied(style, base, revert)[p] == base[p]
    {
      AppliedWrites(style, base, revert, p);
    }
  }

  /** Reverting with the snapshot itself, as the release handler does, restores it. */
  lemma RevertWithSnapshot(style: StyleMap, base: StyleMap)
    ensures forall p :: p in base ==>
      p in Applied(style, base, base) && Applied(style, base, base)[p] == base[p]
  {
    RevertRestoresBaseline(style, base, base);
  }

  /**
   * Applying a style set and then reverting gives the baseline on every
   * baseline property: what the set wrote there is gone.
   */
  lemma ApplyThenRevert(style: StyleMap, base: StyleMap, styles: StyleMap)
    ensures var after := Applied(Applied(style, base, styles), base, base);
      forall p :: p in base ==> p in after && after[p] == base[p]
  {
    RevertWithSnapshot(Applied(style, base, styles), base);
  }

  /** Applying the same style set twice is the same as applying it once. */
  lemma ApplyIdempotent(style: StyleMap, base: StyleMap, styles: StyleMap)
    ensures Applied(Applied(style, base, styles), base, styles) == Applied(style, base, styles)
  {
    var once := Applied(style, base, styles);
    var twice := Applied(once, base, styles);
    forall p | p in twice ensures p in once && twice[p] == once[p] {
      AppliedWrites(once, base, styles, p);
      AppliedWrites(style, base, styles, p);
    }
    forall p | p in once ensures p in twice {
      AppliedWrites(once, base, styles, p);
    }
  }

  /**
   * One more property handled by the applicator's loop: the style after the
   * properties in `done + {p}` is the style after `done` with `p` written.
   */
  lemma AppliedStep(style: StyleMap, base: StyleMap, styles: StyleMap, done: set<string>, p: string)
    requires p in styles && p !in done
    ensures Applied(style, base, Restrict(styles, done + {p})) ==
      match Written(base, styles, p)
      case Some(v) => Applied(style, base, Restrict(styles, done))[p := v]
      case None => Applied(style, base, Restrict(styles, done))
  {
    var before := Applied(style, base, Restrict(styles, done));
    var after := Applied(style, base, Restrict(styles, done + {p}));
    var expected := match Written(base, styles, p)
      case Some(v) => before[p := v]
      case None => before;
    forall q | q in after ensures q in expected && after[q] == expected[q] {
      AppliedWrites(style, base, Restrict(styles, done + {p}), q);
      AppliedWrites(style, base, Restrict(styles, done), q);
    }
    forall q | q in expected ensures q in after {
      AppliedWrites(style, base, Restrict(styles, done + {p}), q);
      AppliedWrites(style, base, Restrict(styles, done), q);
    }
  }

  /** With nothing done yet the style is untouched; with every key done, the whole set is applied. */
  lemma AppliedRestrictEnds(style: StyleMap, base: StyleMap, styles: StyleMap)
    ensures Applied(style, base, Restrict(styles, {})) == style
    ensures Applied(style, base, Restrict(styles, styles.Keys)) == Applied(style, base, styles)
  {
    assert Restrict(styles, styles.Keys) == styles;
    var none := Applied(style, base, Restrict(styles, {}));
    forall q | q in none ensures q in style && none[q] == style[q] {
      AppliedWrites(style, base, Restrict(styles, {}), q);
    }
  }

  /**
   * Reverting writes the captured `transform` into the `rotate` property and
   * leaves `transform` itself, where the tracker keeps the drag offset, alone.
   */
  lemma RevertRotateFromTransform(initial: StyleMap, style: StyleMap)
    ensures var base := CaptureBaseline(initial);
      var after := Applied(style, base, base);
      && "rotate" in after && after["rotate"] == Read(initial, "transform")
      && ("transform" in after <==> "transform" in style)
      && ("transform" in style ==> after["transform"] == style["transform"])
  {
    var base := CaptureBaseline(initial);
    AppliedWrites(style, base, base, "rotate");
    AppliedWrites(style, base, base, "transform");
  }
}
