/**
 * The A/B ad slot (components/AdExperiment.tsx). A visitor is put in variant A or B: a URL
 * override wins, else the variant remembered in local storage, else a fresh random choice that
 * is then remembered. The variant picks the ad slot id among three optional settings.
 */
module AdExperiment {
  import opened Wrappers

  datatype Variant = A | B

  function Name(v: Variant): string {
    match v
    case A => "A"
    case B => "B"
  }

  /** `value === "A" || value === "B"`: the variant a stored or query value names, if any. */
  function ParseVariant(value: Option<string>): (r: Option<Variant>)
    ensures r.Some? <==> value == Some("A") || value == Some("B")
    ensures r.Some? ==> value == Some(Name(r.value))
  {
    if value == Some("A") then Some(A) else if value == Some("B") then Some(B) else None
  }

  /** `ab_ads_${experimentKey}`. */
  function StorageKey(experimentKey: string): string {
    "ab_ads_" + experimentKey
  }

  /** `window.localStorage.getItem(key)`: the stored text, or null. */
  function GetItem(items: map<string, string>, key: string): Option<string> {
    if key in items then Some(items[key]) else None
  }

  /**
   * `resolveVariant` as a function of its inputs: whether a browser window exists, the `ab_ads`
   * query value, the storage contents before the call, the experiment key and the draw of
   * `Math.random()`. It gives the variant and the storage contents after the call.
   */
  function Resolve(hasWindow: bool, urlVariant: Option<string>, items: map<string, string>,
                   experimentKey: string, randomDraw: real): (r: (Variant, map<string, string>))
    ensures r.1 == items || r.1 == items[StorageKey(experimentKey) := Name(r.0)]
    ensures hasWindow && ParseVariant(urlVariant).None? ==>
      GetItem(r.1, StorageKey(experimentKey)) == Some(Name(r.0))
  {
    if !hasWindow then (A, items)
    else if ParseVariant(urlVariant).Some? then (ParseVariant(urlVariant).value, items)
    else
      var storageKey := StorageKey(experimentKey);
      var saved := GetItem(items, storageKey);
      if ParseVariant(saved).Some? then (ParseVariant(saved).value, items)
      else
        var choice := if randomDraw < 0.5 then A else B;
        (choice, items[storageKey := Name(choice)])
  }

  /** Without a browser window (server rendering) the variant is A and nothing is stored. */
  lemma NoWindowIsA(urlVariant: Option<string>, items: map<string, string>, experimentKey: string, randomDraw: real)
    ensures Resolve(false, urlVariant, items, experimentKey, randomDraw) == (A, items)
  {
  }

  /** A query value of "A" or "B" wins and storage is not written. */
  lemma UrlOverrideWins(v: Variant, items: map<string, string>, experimentKey: string, randomDraw: real)
    ensures Resolve(true, Some(Name(v)), items, experimentKey, randomDraw) == (v, items)
  {
  }

  /** Otherwise a stored "A" or "B" is returned unchanged, whatever the random draw. */
  lemma StoredVariantWins(urlVariant: Option<string>, items: map<string, string>, experimentKey: string,
                          v: Variant, randomDraw: real)
    requires ParseVariant(urlVariant).None?
    requires GetItem(items, StorageKey(experimentKey)) == Some(Name(v))
    ensures Resolve(true, urlVariant, items, experimentKey, randomDraw) == (v, items)
  {
  }

  /**
   * Otherwise a draw below one half gives A and any other draw B, and the choice is written
   * under the key, replacing whatever invalid value was there.
   */
  lemma FreshAssignment(urlVariant: Option<string>, items: map<string, string>, experimentKey: string, randomDraw: real)
    requires ParseVariant(urlVariant).None?
    requires ParseVariant(GetItem(items, StorageKey(experimentKey))).None?
    ensures var v := if randomDraw < 0.5 then A else B;
      Resolve(true, urlVariant, items, experimentKey, randomDraw) == (v, items[StorageKey(experimentKey) := Name(v)])
  {
  }

  /** Only the experiment's own key is ever written. */
  lemma OtherKeysUnchanged(hasWindow: bool, urlVariant: Option<string>, items: map<string, string>,
                           experimentKey: string, randomDraw: real, other: string)
    requires other != StorageKey(experimentKey)
    ensures GetItem(Resolve(hasWindow, urlVariant, items, experimentKey, randomDraw).1, other) == GetItem(items, other)
  {
  }

  /**
   * The variant sticks: after a call without a URL override, any later call without one returns
   * the same variant and leaves storage as it is, whatever its random draw.
   */
  lemma VariantSticks(urlVariant: Option<string>, items: map<string, string>, experimentKey: string,
                      randomDraw: real, laterUrlVariant: Option<string>, laterDraw: real)
    requires ParseVariant(urlVariant).None? && ParseVariant(laterUrlVariant).None?
    ensures var (v, after) := Resolve(true, urlVariant, items, experimentKey, randomDraw);
      Resolve(true, laterUrlVariant, after, experimentKey, laterDraw) == (v, after)
  {
    var (v, after) := Resolve(true, urlVariant, items, experimentKey, randomDraw);
    StoredVariantWins(laterUrlVariant, after, experimentKey, v, laterDraw);
  }

  /** `window.localStorage`: string values under string keys, changed in place. */
  class Storage {
    var items: map<string, string>

    constructor(initial: map<string, string>)
      ensures items == initial
    {
      items := initial;
    }

    /** `getItem`. */
    method Get(key: string) returns (value: Option<string>)
      ensures value == GetItem(items, key)
    {
      value := if key in items then Some(items[key]) else None;
    }

    /** `setItem`. */
    method Set(key: string, value: string)
      modifies this
      ensures items == old(items)[key := value]
    {
      items := items[key := value];
    }
  }

  /** `resolveVariant`, reading and writing the storage object in place. */
  method ResolveVariant(hasWindow: bool, urlVariant: Option<string>, storage: Storage,
                        experimentKey: string, randomDraw: real) returns (variant: Variant)
    modifies storage
    ensures (variant, storage.items) == Resolve(hasWindow, urlVariant, old(storage.items), experimentKey, randomDraw)
  {
    if !hasWindow {
      return A;
    }
    var fromUrl := ParseVariant(urlVariant);
    if fromUrl.Some? {
      return fromUrl.value;
    }
    var storageKey := StorageKey(experimentKey);
    var saved := storage.Get(storageKey);
    var fromStorage := ParseVariant(saved);
    if fromStorage.Some? {
      return fromStorage.value;
    }
    var choice := if randomDraw < 0.5 then A else B;
    storage.Set(storageKey, Name(choice));
    return choice;
  }

  /** A slot setting counts only when it is set and non-empty, as `||` reads it. */
  predicate IsSet(slot: Option<string>) {
    slot.Some? && slot.value != ""
  }

  /**
   * The slot for a variant: A takes SLOT_A, else the fallback; B takes SLOT_B, else SLOT_A,
   * else the fallback (each `||` keeps its left side when it is set and non-empty).
   */
  function SlotFor(variant: Variant, slotA: Option<string>, slotB: Option<string>, fallback: Option<string>): (slot: Option<string>)
    ensures IsSet(slot) <==> IsSet(slotA) || IsSet(fallback) || (variant == B && IsSet(slotB))
    ensures variant == A && IsSet(slotA) ==> slot == slotA
    ensures variant == B && IsSet(slotB) ==> slot == slotB
    ensures !IsSet(slot) ==> slot == fallback
    ensures variant == A && !IsSet(slotA) ==> slot == fallback
    ensures variant == B && !IsSet(slotB) ==> slot == (if IsSet(slotA) then slotA else fallback)
  {
    match variant
    case A => if IsSet(slotA) then slotA else fallback
    case B => if IsSet(slotB) then slotB else if IsSet(slotA) then slotA else fallback
  }

  /** With SLOT_B unset, variant B shows the same slot as variant A. */
  lemma UnsetSlotBMatchesA(slotA: Option<string>, slotB: Option<string>, fallback: Option<string>)
    requires !IsSet(slotB)
    ensures SlotFor(B, slotA, slotB, fallback) == SlotFor(A, slotA, slotB, fallback)
  {
  }

  /** Variant A never uses SLOT_B. */
  lemma VariantAIgnoresSlotB(slotA: Option<string>, slotB: Option<string>, otherB: Option<string>, fallback: Option<string>)
    ensures SlotFor(A, slotA, slotB, fallback) == SlotFor(A, slotA, otherB, fallback)
  {
  }

  /** The component's state: whether its mount effect has run, and the variant it chose. */
  class AdSlot {
    const experimentKey: string
    var mounted: bool
    var variant: Variant

    /** `useState(false)` and `useState("A")`. */
    constructor(experimentKey: string)
      ensures this.experimentKey == experimentKey && !mounted && variant == A
    {
      this.experimentKey := experimentKey;
      mounted := false;
      variant := A;
    }

    /** The mount effect: resolve the variant, then mark the component mounted. */
    method Mount(hasWindow: bool, urlVariant: Option<string>, storage: Storage, randomDraw: real)
      modifies this, storage
      ensures mounted
      ensures (variant, storage.items) == Resolve(hasWindow, urlVariant, old(storage.items), experimentKey, randomDraw)
    {
      variant := ResolveVariant(hasWindow, urlVariant, storage, experimentKey, randomDraw);
      mounted := true;
    }

    /**
     * What is rendered: the slot id on the ad element, or nothing before mounting or without a
     * non-empty slot. The `adsbygoogle.push` effect runs under the same condition.
     */
    method Render(slotA: Option<string>, slotB: Option<string>, fallback: Option<string>) returns (shown: Option<string>)
      ensures shown.Some? <==> mounted && IsSet(SlotFor(variant, slotA, slotB, fallback))
      ensures shown.Some? ==> shown == SlotFor(variant, slotA, slotB, fallback) && shown.value != ""
    {
      var slot := SlotFor(variant, slotA, slotB, fallback);
      if !mounted || !IsSet(slot) {
        return None;
      }
      return slot;
    }
  }
}
