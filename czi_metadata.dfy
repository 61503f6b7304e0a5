/** The metadata selection rules of `czi_metadata_processor.py`: the depth-first
    `recursive_find`, the per-key collection of matching elements, the µm to nm
    scale conversion and the per-channel choice of metadata entry. The XML
    document is a tree of elements; `int()` on the emission wavelength text and
    the wavelength-to-colour `RangeDict` are foreign and enter as parameters. */
module CziMetadata {
  import opened Wrappers

  /** An XML element: its tag, its text (None when it has none) and its children
      in document order. */
  datatype Element = Element(tag: string, text: Option<string>, children: seq<Element>)

  /** `recursive_find`: the element itself if its tag matches, otherwise the
      first match among its children, searched depth first in child order. */
  function RecursiveFind(e: Element, tag: string): (r: Option<Element>)
    ensures r.Some? ==> r.value.tag == tag
    decreases e
  {
    if e.tag == tag then Some(e) else FindInChildren(e.children, tag)
  }

  function FindInChildren(children: seq<Element>, tag: string): (r: Option<Element>)
    ensures r.Some? ==> r.value.tag == tag
    decreases children
  {
    if |children| == 0 then None
    else
      match RecursiveFind(children[0], tag)
      case Some(found) => Some(found)
      case None => FindInChildren(children[1..], tag)
  }

  /** The elements of a tree in document order: each element before its
      descendants, children left to right. */
  function Preorder(e: Element): seq<Element>
    decreases e
  {
    [e] + PreorderAll(e.children)
  }

  function PreorderAll(children: seq<Element>): seq<Element>
    decreases children
  {
    if |children| == 0 then [] else Preorder(children[0]) + PreorderAll(children[1..])
  }

  /** The first element of a list that carries `tag`. */
  function FirstWithTag(s: seq<Element>, tag: string): Option<Element>
  {
    if |s| == 0 then None
    else if s[0].tag == tag then Some(s[0])
    else FirstWithTag(s[1..], tag)
  }

  lemma {:induction false} FirstWithTagAppend(a: seq<Element>, b: seq<Element>, tag: string)
    ensures FirstWithTag(a + b, tag) == if FirstWithTag(a, tag).Some? then FirstWithTag(a, tag) else FirstWithTag(b, tag)
  {
    if |a| > 0 {
      assert (a + b)[1..] == a[1..] + b;
      FirstWithTagAppend(a[1..], b, tag);
    } else {
      assert a + b == b;
    }
  }

  lemma {:induction false} FirstWithTagNone(s: seq<Element>, tag: string)
    ensures FirstWithTag(s, tag).None? <==> forall i :: 0 <= i < |s| ==> s[i].tag != tag
  {
    if |s| > 0 {
      FirstWithTagNone(s[1..], tag);
      assert forall i :: 1 <= i < |s| ==> s[i] == s[1..][i - 1];
    }
  }

  /** `recursive_find` returns the first element in document order whose tag
      matches, and None exactly when no element of the tree has that tag. */
  lemma {:induction false} RecursiveFindIsFirstInDocumentOrder(e: Element, tag: string)
    ensures RecursiveFind(e, tag) == FirstWithTag(Preorder(e), tag)
    ensures RecursiveFind(e, tag).None? <==> forall n :: n in Preorder(e) ==> n.tag != tag
    decreases e, 1
  {
    if e.tag != tag {
      FindInChildrenIsFirst(e.children, tag);
      assert Preorder(e)[1..] == PreorderAll(e.children);
    }
    FirstWithTagNone(Preorder(e), tag);
  }

  lemma {:induction false} FindInChildrenIsFirst(children: seq<Element>, tag: string)
    ensures FindInChildren(children, tag) == FirstWithTag(PreorderAll(children), tag)
    decreases children, 0
  {
    if |children| > 0 {
      RecursiveFindIsFirstInDocumentOrder(children[0], tag);
      FindInChildrenIsFirst(children[1..], tag);
      FirstWithTagAppend(Preorder(children[0]), PreorderAll(children[1..]), tag);
    }
  }

  function HasTag(tag: string): Element -> bool
  {
    (e: Element) => e.tag == tag
  }

  /** `find_in_xml_tree`, that is `findall(".//tag")`: every descendant of the
      root with that tag, in document order. */
  function FindAll(root: Element, tag: string): (found: seq<Element>)
    ensures forall n :: n in found <==> n in PreorderAll(root.children) && n.tag == tag
  {
    var found := Filter(PreorderAll(root.children), HasTag(tag));
    assert forall n :: n in found <==> n in PreorderAll(root.children) && n.tag == tag by {
      forall n ensures n in found <==> n in PreorderAll(root.children) && n.tag == tag {
        FilterMembers(PreorderAll(root.children), HasTag(tag), n);
      }
    }
    found
  }

  /** The matches keep document order: together with the descendants that do
      not match, they make up the whole preorder walk, each in its own order. */
  lemma FindAllKeepsDocumentOrder(root: Element, tag: string)
    ensures Interleaves(PreorderAll(root.children), FindAll(root, tag),
                        Filter(PreorderAll(root.children), Complement(HasTag(tag))))
  {
    FilterPartitions(PreorderAll(root.children), HasTag(tag));
  }

  /** The keys that `extract_key_metadata` looks up. */
  datatype MetadataKey =
    | LensNA | CameraName | NominalMagnification | PinholeSizeAiry
    | ExcitationWavelength | EmissionWavelength | ObjectiveName | DefaultScalingUnit
  {
    /** The element tag, which is also the dictionary key. */
    function Tag(): string
    {
      match this
      case LensNA => "LensNA"
      case CameraName => "CameraName"
      case NominalMagnification => "NominalMagnification"
      case PinholeSizeAiry => "PinholeSizeAiry"
      case ExcitationWavelength => "ExcitationWavelength"
      case EmissionWavelength => "EmissionWavelength"
      case ObjectiveName => "ObjectiveName"
      case DefaultScalingUnit => "DefaultScalingUnit"
    }
  }

  /** The keys in the order of the source's list, which is also the order in
      which each channel's dictionary is filled. */
  const MetadataKeys: seq<MetadataKey> := [LensNA, CameraName, NominalMagnification, PinholeSizeAiry,
    ExcitationWavelength, EmissionWavelength, ObjectiveName, DefaultScalingUnit]

  const Micrometre: string := "micrometre"
  const MicrometreSymbol: string := "\U{00B5}m"

  /** The reader's physical pixel sizes along Z, Y and X; a size the file
      does not record is None. */
  datatype PixelSizes = PixelSizes(z: Option<real>, y: Option<real>, x: Option<real>)

  /** One entry of the returned list: the layer arguments of one channel. */
  datatype ChannelMetadata = ChannelMetadata(scale: seq<Option<real>>, units: Option<string>,
                                             metadata: map<MetadataKey, Option<string>>,
                                             blending: string, colormap: string)

  datatype MetadataError =
    | UnitsNotSubscriptable                  // TypeError: `None[0]` when no DefaultScalingUnit exists
    | TooFewEntries(key: MetadataKey, found: nat) // ValueError: 2 .. channels-1 entries for a key
    | WavelengthIsNone                       // TypeError: `int(None)`
    | WavelengthNotInteger(text: string)     // ValueError: `int(text)` rejects the text
    | PixelSizeIsNone                        // TypeError: `None * 1000` when converting micrometres

  /** `key_dict[key]`: the list of matches, or None when there is none. */
  function KeyEntries(tree: Element, key: MetadataKey): (r: Option<seq<Element>>)
    ensures r.None? <==> FindAll(tree, key.Tag()) == []
    ensures r.Some? ==> r.value == FindAll(tree, key.Tag())
  {
    var found := FindAll(tree, key.Tag());
    if |found| > 0 then Some(found) else None
  }

  /** The scale and units shared by every channel: micrometres become
      nanometres, which fails on a missing pixel size; anything else passes
      the sizes and the units through unchanged. */
  function ScaleAndUnits(units: Option<string>, sizes: PixelSizes): (r: Result<(seq<Option<real>>, Option<string>), MetadataError>)
    ensures (units == Some(Micrometre) || units == Some(MicrometreSymbol)) && (sizes.z.None? || sizes.y.None? || sizes.x.None?)
      <==> r.Failure?
    ensures r.Failure? ==> r.error == PixelSizeIsNone
    ensures r.Success? && (units == Some(Micrometre) || units == Some(MicrometreSymbol)) ==>
      r.value.0 == [Some(sizes.z.value * 1000.0), Some(sizes.y.value * 1000.0), Some(sizes.x.value * 1000.0)]
      && r.value.1 == Some("nm")
    ensures !(units == Some(Micrometre) || units == Some(MicrometreSymbol)) ==>
      r == Success(([sizes.z, sizes.y, sizes.x], units))
  {
    if units == Some(Micrometre) || units == Some(MicrometreSymbol) then
      if sizes.z.None? || sizes.y.None? || sizes.x.None? then Failure(PixelSizeIsNone)
      else Success(([Some(sizes.z.value * 1000.0), Some(sizes.y.value * 1000.0), Some(sizes.x.value * 1000.0)], Some("nm")))
    else
      Success(([sizes.z, sizes.y, sizes.x], units))
  }

  /** Converting already converted units changes nothing: "nm" is passed through. */
  lemma ScaleConversionIsIdempotent(units: Option<string>, sizes: PixelSizes)
    requires ScaleAndUnits(units, sizes).Success?
    ensures var r := ScaleAndUnits(units, sizes).value;
      ScaleAndUnits(r.1, PixelSizes(r.0[0], r.0[1], r.0[2])) == Success(r)
  {
    assert "nm" != Micrometre && "nm" != MicrometreSymbol;
  }

  /** The entry of one key for one channel. */
  function SelectEntry(key: MetadataKey, data: Option<seq<Element>>, channel: nat, channels: nat): Result<Option<string>, MetadataError>
  {
    if data.None? || |data.value| == 0 then Success(None)
    else if |data.value| == 1 then Success(data.value[0].text)
    else if |data.value| < channels then Failure(TooFewEntries(key, |data.value|))
    else if channel < |data.value| then Success(data.value[channel].text)
    else Success(None)
  }

  /** The `metadata_metadata` dictionary of one channel over the first keys. */
  function ChannelEntries(keyDict: map<MetadataKey, Option<seq<Element>>>, keys: seq<MetadataKey>,
                          channel: nat, channels: nat): Result<map<MetadataKey, Option<string>>, MetadataError>
    requires forall k :: k in keys ==> k in keyDict
    decreases |keys|
  {
    if |keys| == 0 then Success(map[])
    else
      var key := keys[|keys| - 1];
      match ChannelEntries(keyDict, keys[..|keys| - 1], channel, channels)
      case Failure(e) => Failure(e)
      case Success(m) =>
        match SelectEntry(key, keyDict[key], channel, channels)
        case Failure(e) => Failure(e)
        case Success(v) => Success(m[key := v])
  }

  /** The dictionary of one channel, with its colour map from the emission wavelength. */
  function ChannelOf(keyDict: map<MetadataKey, Option<seq<Element>>>, scale: seq<Option<real>>, units: Option<string>,
                     channel: nat, channels: nat,
                     parseInt: string -> Option<int>, colour: int -> string): Result<ChannelMetadata, MetadataError>
    requires forall k :: k in MetadataKeys ==> k in keyDict
  {
    match ChannelEntries(keyDict, MetadataKeys, channel, channels)
    case Failure(e) => Failure(e)
    case Success(m) =>
      assert EmissionWavelength in m by { ChannelEntriesKeys(keyDict, MetadataKeys, channel, channels); }
      match m[EmissionWavelength]
      case None => Failure(WavelengthIsNone)
      case Some(text) =>
        match parseInt(text)
        case None => Failure(WavelengthNotInteger(text))
        case Some(wavelength) => Success(ChannelMetadata(scale, units, m, "additive", colour(wavelength)))
  }

  /** The list of the first `n` channels, or the first error raised. */
  function ChannelsUpTo(keyDict: map<MetadataKey, Option<seq<Element>>>, scale: seq<Option<real>>, units: Option<string>,
                        n: nat, channels: nat,
                        parseInt: string -> Option<int>, colour: int -> string): Result<seq<ChannelMetadata>, MetadataError>
    requires forall k :: k in MetadataKeys ==> k in keyDict
  {
    if n == 0 then Success([])
    else
      match ChannelsUpTo(keyDict, scale, units, n - 1, channels, parseInt, colour)
      case Failure(e) => Failure(e)
      case Success(list) =>
        match ChannelOf(keyDict, scale, units, n - 1, channels, parseInt, colour)
        case Failure(e) => Failure(e)
        case Success(c) => Success(list + [c])
  }

  function KeyDict(tree: Element): (d: map<MetadataKey, Option<seq<Element>>>)
    ensures forall k :: k in d <==> k in MetadataKeys
  {
    map k | k in MetadataKeys :: KeyEntries(tree, k)
  }

  /** What `extract_key_metadata` returns or raises. */
  function ExtractSpec(tree: Element, sizes: PixelSizes, channels: nat,
                       parseInt: string -> Option<int>, colour: int -> string): Result<seq<ChannelMetadata>, MetadataError>
  {
    var keyDict := KeyDict(tree);
    match keyDict[DefaultScalingUnit]
    case None => Failure(UnitsNotSubscriptable)
    case Some(entries) =>
      match ScaleAndUnits(entries[0].text, sizes)
      case Failure(e) => Failure(e)
      case Success(su) => ChannelsUpTo(keyDict, su.0, su.1, channels, channels, parseInt, colour)
  }

  /** `extract_key_metadata(reader, channels)`, the reader given as its metadata
      tree and its physical pixel sizes. */
  method ExtractKeyMetadata(tree: Element, sizes: PixelSizes, channels: nat,
                            parseInt: string -> Option<int>, colour: int -> string)
    returns (r: Result<seq<ChannelMetadata>, MetadataError>)
    ensures r == ExtractSpec(tree, sizes, channels, parseInt, colour)
  {
    var keyDict := BuildKeyDict(tree);
    var unitEntries := keyDict[DefaultScalingUnit];
    assert unitEntries == KeyEntries(tree, DefaultScalingUnit);
    MissingUnitsRaise(tree, sizes, channels, parseInt, colour);
    if unitEntries.None? {
      return Failure(UnitsNotSubscriptable);
    }
    ExtractSpecUnfolds(tree, sizes, channels, parseInt, colour);
    var scaleAndUnits := ScaleAndUnits(unitEntries.value[0].text, sizes);
    if scaleAndUnits.Failure? {
      return Failure(scaleAndUnits.error);
    }
    r := BuildChannels(keyDict, scaleAndUnits.value.0, scaleAndUnits.value.1, channels, parseInt, colour);
  }

  /** The loop over the channels, raising the first error met. */
  method BuildChannels(keyDict: map<MetadataKey, Option<seq<Element>>>, scale: seq<Option<real>>, units: Option<string>,
                       channels: nat, parseInt: string -> Option<int>, colour: int -> string)
    returns (r: Result<seq<ChannelMetadata>, MetadataError>)
    requires forall k :: k in MetadataKeys ==> k in keyDict
    ensures r == ChannelsUpTo(keyDict, scale, units, channels, channels, parseInt, colour)
  {
    var dictList: seq<ChannelMetadata> := [];
    var channel := 0;
    while channel < channels
      invariant 0 <= channel <= channels
      invariant ChannelsUpTo(keyDict, scale, units, channel, channels, parseInt, colour) == Success(dictList)
    {
      var entries := ChannelDictionary(keyDict, channel, channels);
      if entries.Failure? {
        r := Failure(entries.error);
        ChannelsFailurePersist(keyDict, scale, units, channel, channels, parseInt, colour);
        return;
      }
      var metadata := entries.value;
      ChannelEntriesKeys(keyDict, MetadataKeys, channel, channels);
      var emission := metadata[EmissionWavelength];
      if emission.None? {
        r := Failure(WavelengthIsNone);
        ChannelsFailurePersist(keyDict, scale, units, channel, channels, parseInt, colour);
        return;
      }
      var wavelength := parseInt(emission.value);
      if wavelength.None? {
        r := Failure(WavelengthNotInteger(emission.value));
        ChannelsFailurePersist(keyDict, scale, units, channel, channels, parseInt, colour);
        return;
      }
      var entry := ChannelMetadata(scale, units, metadata, "additive", colour(wavelength.value));
      dictList := dictList + [entry];
      channel := channel + 1;
    }
    r := Success(dictList);
  }

  /** The `key_dict` loop: every key mapped to its matches, or None. */
  method BuildKeyDict(tree: Element) returns (keyDict: map<MetadataKey, Option<seq<Element>>>)
    ensures keyDict == KeyDict(tree)
  {
    keyDict := map[];
    var i := 0;
    while i < |MetadataKeys|
      invariant 0 <= i <= |MetadataKeys|
      invariant forall k :: k in keyDict <==> k in MetadataKeys[..i]
      invariant forall k :: k in keyDict ==> keyDict[k] == KeyEntries(tree, k)
    {
      var key := MetadataKeys[i];
      var data := FindAll(tree, key.Tag());
      if |data| > 0 {
        keyDict := keyDict[key := Some(data)];
      } else {
        keyDict := keyDict[key := None];
      }
      assert keyDict[key] == KeyEntries(tree, key);
      assert MetadataKeys[..i + 1] == MetadataKeys[..i] + [key];
      i := i + 1;
    }
    assert MetadataKeys[..i] == MetadataKeys;
    KeyDictByEntries(tree, keyDict);
  }

  /** A map over exactly the keys, holding each key's matches, is the key dictionary. */
  lemma KeyDictByEntries(tree: Element, keyDict: map<MetadataKey, Option<seq<Element>>>)
    requires forall k :: k in keyDict <==> k in MetadataKeys
    requires forall k :: k in keyDict ==> keyDict[k] == KeyEntries(tree, k)
    ensures keyDict == KeyDict(tree)
  {
  }

  /** The inner loop over the keys for one channel, raising on the first key
      with too few entries. */
  method ChannelDictionary(keyDict: map<MetadataKey, Option<seq<Element>>>, channel: nat, channels: nat)
    returns (r: Result<map<MetadataKey, Option<string>>, MetadataError>)
    requires forall k :: k in MetadataKeys ==> k in keyDict
    ensures r == ChannelEntries(keyDict, MetadataKeys, channel, channels)
  {
    var metadata: map<MetadataKey, Option<string>> := map[];
    var j := 0;
    while j < |MetadataKeys|
      invariant 0 <= j <= |MetadataKeys|
      invariant ChannelEntries(keyDict, MetadataKeys[..j], channel, channels) == Success(metadata)
    {
      var key := MetadataKeys[j];
      var data := keyDict[key];
      assert MetadataKeys[..j + 1][..j] == MetadataKeys[..j];
      if data.Some? && |data.value| > 0 {
        if |data.value| == 1 {
          metadata := metadata[key := data.value[0].text];
        } else if |data.value| < channels {
          r := Failure(TooFewEntries(key, |data.value|));
          assert ChannelEntries(keyDict, MetadataKeys[..j + 1], channel, channels) == Failure(r.error);
          EntriesFailurePersists(keyDict, MetadataKeys, j + 1, channel, channels);
          return;
        } else if channel < |data.value| {
          metadata := metadata[key := data.value[channel].text];
        } else {
          metadata := metadata[key := None];
        }
      } else {
        metadata := metadata[key := None];
      }
      j := j + 1;
    }
    assert MetadataKeys[..j] == MetadataKeys;
    r := Success(metadata);
  }

  /** A key whose entry fails makes the whole channel fail with that error. */
  lemma {:induction false} EntriesFailurePersists(keyDict: map<MetadataKey, Option<seq<Element>>>, keys: seq<MetadataKey>,
                                                  j: nat, channel: nat, channels: nat)
    requires forall k :: k in keys ==> k in keyDict
    requires j <= |keys|
    requires ChannelEntries(keyDict, keys[..j], channel, channels).Failure?
    ensures ChannelEntries(keyDict, keys, channel, channels) == ChannelEntries(keyDict, keys[..j], channel, channels)
    decreases |keys| - j
  {
    if j < |keys| {
      EntriesFailurePersists(keyDict, keys[..|keys| - 1], j, channel, channels) by {
        assert keys[..|keys| - 1][..j] == keys[..j];
      }
      if j < |keys| - 1 {
        assert keys[..|keys| - 1][..j] == keys[..j];
      } else {
        assert keys[..j] == keys[..|keys| - 1];
      }
    } else {
      assert keys[..j] == keys;
    }
  }

  /** A channel that fails makes the whole list fail with its error. */
  lemma {:induction false} ChannelsFailurePersist(keyDict: map<MetadataKey, Option<seq<Element>>>, scale: seq<Option<real>>,
                                                  units: Option<string>, channel: nat, channels: nat,
                                                  parseInt: string -> Option<int>, colour: int -> string)
    requires forall k :: k in MetadataKeys ==> k in keyDict
    requires channel < channels
    requires ChannelsUpTo(keyDict, scale, units, channel, channels, parseInt, colour).Success?
    requires ChannelOf(keyDict, scale, units, channel, channels, parseInt, colour).Failure?
    ensures ChannelsUpTo(keyDict, scale, units, channels, channels, parseInt, colour)
         == Failure(ChannelOf(keyDict, scale, units, channel, channels, parseInt, colour).error)
  {
    var e := ChannelOf(keyDict, scale, units, channel, channels, parseInt, colour).error;
    var n := channel + 1;
    while n < channels
      invariant channel < n <= channels
      invariant ChannelsUpTo(keyDict, scale, units, n, channels, parseInt, colour) == Failure(e)
    {
      n := n + 1;
    }
  }

  /** A channel's dictionary has exactly the keys looked up. */
  lemma {:induction false} ChannelEntriesKeys(keyDict: map<MetadataKey, Option<seq<Element>>>, keys: seq<MetadataKey>,
                                              channel: nat, channels: nat)
    requires forall k :: k in keys ==> k in keyDict
    ensures var r := ChannelEntries(keyDict, keys, channel, channels);
      r.Success? ==> forall k :: k in r.value <==> k in keys
    decreases |keys|
  {
    if |keys| > 0 {
      var init := keys[..|keys| - 1];
      ChannelEntriesKeys(keyDict, init, channel, channels);
      assert keys == init + [keys[|keys| - 1]];
    }
  }

  /** Each key of a channel's dictionary holds the entry selected for it. */
  lemma {:induction false} ChannelEntriesValues(keyDict: map<MetadataKey, Option<seq<Element>>>, keys: seq<MetadataKey>,
                                                channel: nat, channels: nat, key: MetadataKey)
    requires forall k :: k in keys ==> k in keyDict
    requires key in keys
    requires ChannelEntries(keyDict, keys, channel, channels).Success?
    ensures key in ChannelEntries(keyDict, keys, channel, channels).value
    ensures SelectEntry(key, keyDict[key], channel, channels)
         == Success(ChannelEntries(keyDict, keys, channel, channels).value[key])
    decreases |keys|
  {
    var last := keys[|keys| - 1];
    var init := keys[..|keys| - 1];
    if key != last {
      assert key in init by { assert keys == init + [last]; }
      ChannelEntriesValues(keyDict, init, channel, channels, key);
    }
  }

  /** A channel fails exactly with the error of some key whose entry fails,
      and any key whose entry fails makes it fail. */
  lemma {:induction false} ChannelEntriesErrors(keyDict: map<MetadataKey, Option<seq<Element>>>, keys: seq<MetadataKey>,
                                                channel: nat, channels: nat)
    requires forall k :: k in keys ==> k in keyDict
    ensures var r := ChannelEntries(keyDict, keys, channel, channels);
      r.Failure? ==> r.error.TooFewEntries? && r.error.key in keys
                     && SelectEntry(r.error.key, keyDict[r.error.key], channel, channels) == Failure(r.error)
    ensures forall k :: k in keys && SelectEntry(k, keyDict[k], channel, channels).Failure? ==>
      ChannelEntries(keyDict, keys, channel, channels).Failure?
    decreases |keys|
  {
    if |keys| > 0 {
      var init := keys[..|keys| - 1];
      ChannelEntriesErrors(keyDict, init, channel, channels);
      assert keys == init + [keys[|keys| - 1]];
    }
  }

  /** The list of the first `n` channels holds, at each index, that channel's dictionary. */
  lemma {:induction false} ChannelsUpToValues(keyDict: map<MetadataKey, Option<seq<Element>>>, scale: seq<Option<real>>,
                                              units: Option<string>, n: nat, channels: nat,
                                              parseInt: string -> Option<int>, colour: int -> string)
    requires forall k :: k in MetadataKeys ==> k in keyDict
    requires ChannelsUpTo(keyDict, scale, units, n, channels, parseInt, colour).Success?
    ensures var list := ChannelsUpTo(keyDict, scale, units, n, channels, parseInt, colour).value;
      |list| == n && forall i :: 0 <= i < n ==>
        ChannelOf(keyDict, scale, units, i, channels, parseInt, colour) == Success(list[i])
  {
    if n > 0 {
      ChannelsUpToValues(keyDict, scale, units, n - 1, channels, parseInt, colour);
    }
  }

  /** What a successful channel dictionary holds. */
  lemma ChannelOfSuccess(keyDict: map<MetadataKey, Option<seq<Element>>>, scale: seq<Option<real>>, units: Option<string>,
                         channel: nat, channels: nat, parseInt: string -> Option<int>, colour: int -> string)
    requires forall k :: k in MetadataKeys ==> k in keyDict
    requires ChannelOf(keyDict, scale, units, channel, channels, parseInt, colour).Success?
    ensures var c := ChannelOf(keyDict, scale, units, channel, channels, parseInt, colour).value;
      var entries := ChannelEntries(keyDict, MetadataKeys, channel, channels);
      entries.Success? && c.metadata == entries.value
      && c.blending == "additive" && c.scale == scale && c.units == units
  {
  }

  /** ExtractSpec's result, once the units are found. */
  lemma ExtractSpecUnfolds(tree: Element, sizes: PixelSizes, channels: nat,
                           parseInt: string -> Option<int>, colour: int -> string)
    requires FindAll(tree, DefaultScalingUnit.Tag()) != []
    ensures var keyDict := KeyDict(tree);
      var units := FindAll(tree, DefaultScalingUnit.Tag());
      var su := ScaleAndUnits(units[0].text, sizes);
      (su.Failure? ==> ExtractSpec(tree, sizes, channels, parseInt, colour) == Failure(su.error))
      && (su.Success? ==>
            ExtractSpec(tree, sizes, channels, parseInt, colour)
              == ChannelsUpTo(keyDict, su.value.0, su.value.1, channels, channels, parseInt, colour))
  {
    assert KeyDict(tree)[DefaultScalingUnit] == KeyEntries(tree, DefaultScalingUnit);
  }

  /** On success there is one dictionary per channel, each with additive
      blending, the shared converted scale and units, and every key. */
  lemma ExtractGivesOneEntryPerChannel(tree: Element, sizes: PixelSizes, channels: nat,
                                       parseInt: string -> Option<int>, colour: int -> string)
    requires ExtractSpec(tree, sizes, channels, parseInt, colour).Success?
    ensures var list := ExtractSpec(tree, sizes, channels, parseInt, colour).value;
      var units := FindAll(tree, DefaultScalingUnit.Tag());
      |units| > 0 && |list| == channels
      && forall i :: 0 <= i < channels ==>
        list[i].blending == "additive"
        && ScaleAndUnits(units[0].text, sizes) == Success((list[i].scale, list[i].units))
        && forall k :: k in list[i].metadata <==> k in MetadataKeys
  {
    MissingUnitsRaise(tree, sizes, channels, parseInt, colour);
    var keyDict := KeyDict(tree);
    var units := FindAll(tree, DefaultScalingUnit.Tag());
    ExtractSpecUnfolds(tree, sizes, channels, parseInt, colour);
    var su := ScaleAndUnits(units[0].text, sizes).value;
    ChannelsUpToValues(keyDict, su.0, su.1, channels, channels, parseInt, colour);
    forall i | 0 <= i < channels
      ensures var c := ChannelOf(keyDict, su.0, su.1, i, channels, parseInt, colour).value;
        c.blending == "additive" && (c.scale, c.units) == su && forall k :: k in c.metadata <==> k in MetadataKeys
    {
      ChannelOfSuccess(keyDict, su.0, su.1, i, channels, parseInt, colour);
      ChannelEntriesKeys(keyDict, MetadataKeys, i, channels);
    }
  }

  /** On success, each key's entry follows the selection rule: no match gives
      None, a single match gives its text to every channel, and otherwise
      channel i gets the text of match i. */
  lemma ExtractSelectsEntryPerChannel(tree: Element, sizes: PixelSizes, channels: nat,
                                      parseInt: string -> Option<int>, colour: int -> string,
                                      key: MetadataKey, i: nat)
    requires ExtractSpec(tree, sizes, channels, parseInt, colour).Success?
    requires key in MetadataKeys && i < channels
    ensures var list := ExtractSpec(tree, sizes, channels, parseInt, colour).value;
      var found := FindAll(tree, key.Tag());
      |list| == channels && key in list[i].metadata
      && (|found| == 0 ==> list[i].metadata[key] == None)
      && (|found| == 1 ==> list[i].metadata[key] == found[0].text)
      && (|found| > 1 ==> |found| >= channels && list[i].metadata[key] == found[i].text)
  {
    MissingUnitsRaise(tree, sizes, channels, parseInt, colour);
    var units := FindAll(tree, DefaultScalingUnit.Tag());
    ExtractSpecUnfolds(tree, sizes, channels, parseInt, colour);
    var su := ScaleAndUnits(units[0].text, sizes).value;
    var keyDict := KeyDict(tree);
    var list := ExtractSpec(tree, sizes, channels, parseInt, colour).value;
    assert list == ChannelsUpTo(keyDict, su.0, su.1, channels, channels, parseInt, colour).value;
    ChannelsSelectEntry(keyDict, su.0, su.1, channels, parseInt, colour, key, i);
    assert keyDict[key] == KeyEntries(tree, key);
    assert SelectEntry(key, KeyEntries(tree, key), i, channels) == Success(list[i].metadata[key]);
  }

  /** Channel i of a successful list holds, for each key, the entry the
      selection rule picks for channel i. */
  lemma ChannelsSelectEntry(keyDict: map<MetadataKey, Option<seq<Element>>>, scale: seq<Option<real>>, units: Option<string>,
                            channels: nat, parseInt: string -> Option<int>, colour: int -> string,
                            key: MetadataKey, i: nat)
    requires forall k :: k in MetadataKeys ==> k in keyDict
    requires ChannelsUpTo(keyDict, scale, units, channels, channels, parseInt, colour).Success?
    requires key in MetadataKeys && i < channels
    ensures var list := ChannelsUpTo(keyDict, scale, units, channels, channels, parseInt, colour).value;
      |list| == channels && key in list[i].metadata
      && SelectEntry(key, keyDict[key], i, channels) == Success(list[i].metadata[key])
  {
    var list := ChannelsUpTo(keyDict, scale, units, channels, channels, parseInt, colour).value;
    ChannelsUpToValues(keyDict, scale, units, channels, channels, parseInt, colour);
    assert ChannelOf(keyDict, scale, units, i, channels, parseInt, colour) == Success(list[i]);
    ChannelOfSuccess(keyDict, scale, units, i, channels, parseInt, colour);
    ChannelEntriesValues(keyDict, MetadataKeys, i, channels, key);
  }

  /** A key matched 2 .. channels-1 times makes the call raise a ValueError
      naming a key with that many matches. */
  lemma TooFewEntriesRaise(tree: Element, sizes: PixelSizes, channels: nat,
                           parseInt: string -> Option<int>, colour: int -> string, key: MetadataKey)
    requires key in MetadataKeys
    requires 1 < |FindAll(tree, key.Tag())| < channels
    ensures var r := ExtractSpec(tree, sizes, channels, parseInt, colour);
      r.Failure? && (r.error.TooFewEntries? || r.error == UnitsNotSubscriptable || r.error == PixelSizeIsNone)
    ensures var r := ExtractSpec(tree, sizes, channels, parseInt, colour);
      r.Failure? && r.error.TooFewEntries? ==>
        r.error.key in MetadataKeys && r.error.found == |FindAll(tree, r.error.key.Tag())| && 1 < r.error.found < channels
  {
    var units := FindAll(tree, DefaultScalingUnit.Tag());
    if units == [] {
      MissingUnitsRaise(tree, sizes, channels, parseInt, colour);
    } else {
      ExtractSpecUnfolds(tree, sizes, channels, parseInt, colour);
      var su := ScaleAndUnits(units[0].text, sizes);
      if su.Success? {
        TooFewEntriesFailChannels(tree, su.value.0, su.value.1, channels, parseInt, colour, key);
      }
    }
  }

  /** TooFewEntriesRaise once the scale and units are known. */
  lemma TooFewEntriesFailChannels(tree: Element, scale: seq<Option<real>>, units: Option<string>, channels: nat,
                                  parseInt: string -> Option<int>, colour: int -> string, key: MetadataKey)
    requires key in MetadataKeys
    requires 1 < |FindAll(tree, key.Tag())| < channels
    ensures var r := ChannelsUpTo(KeyDict(tree), scale, units, channels, channels, parseInt, colour);
      r.Failure? && r.error.TooFewEntries?
      && r.error.key in MetadataKeys && r.error.found == |FindAll(tree, r.error.key.Tag())| && 1 < r.error.found < channels
  {
    var keyDict := KeyDict(tree);
    assert keyDict[key] == KeyEntries(tree, key);
    FirstChannelFails(keyDict, scale, units, channels, parseInt, colour, key);
    var e := ChannelsUpTo(keyDict, scale, units, channels, channels, parseInt, colour).error;
    assert keyDict[e.key] == KeyEntries(tree, e.key);
  }

  /** A key whose entry fails for the first channel makes the whole list fail,
      with the ValueError of some key whose entry fails. */
  lemma FirstChannelFails(keyDict: map<MetadataKey, Option<seq<Element>>>, scale: seq<Option<real>>, units: Option<string>,
                          channels: nat, parseInt: string -> Option<int>, colour: int -> string, key: MetadataKey)
    requires forall k :: k in MetadataKeys ==> k in keyDict
    requires key in MetadataKeys && SelectEntry(key, keyDict[key], 0, channels).Failure?
    ensures var r := ChannelsUpTo(keyDict, scale, units, channels, channels, parseInt, colour);
      r.Failure? && r.error.TooFewEntries? && r.error.key in MetadataKeys
      && keyDict[r.error.key].Some? && r.error.found == |keyDict[r.error.key].value| && 1 < r.error.found < channels
  {
    ChannelEntriesErrors(keyDict, MetadataKeys, 0, channels);
    var e := ChannelEntries(keyDict, MetadataKeys, 0, channels).error;
    assert SelectEntry(e.key, keyDict[e.key], 0, channels) == Failure(e);
    assert 0 < channels;
    ChannelsFailurePersist(keyDict, scale, units, 0, channels, parseInt, colour);
  }

  /** Micrometre units with a pixel size the file does not record raise the
      TypeError of `None * 1000`, once the units are found. */
  lemma MissingPixelSizeRaises(tree: Element, sizes: PixelSizes, channels: nat,
                               parseInt: string -> Option<int>, colour: int -> string)
    requires FindAll(tree, DefaultScalingUnit.Tag()) != []
    requires FindAll(tree, DefaultScalingUnit.Tag())[0].text in {Some(Micrometre), Some(MicrometreSymbol)}
    requires sizes.z.None? || sizes.y.None? || sizes.x.None?
    ensures ExtractSpec(tree, sizes, channels, parseInt, colour) == Failure(PixelSizeIsNone)
  {
    ExtractSpecUnfolds(tree, sizes, channels, parseInt, colour);
  }

  /** Without a DefaultScalingUnit element the micrometre fallback is never
      reached: the lookup always finds the key, and indexing its None fails. */
  lemma MissingUnitsRaise(tree: Element, sizes: PixelSizes, channels: nat,
                          parseInt: string -> Option<int>, colour: int -> string)
    ensures FindAll(tree, DefaultScalingUnit.Tag()) == [] <==>
      ExtractSpec(tree, sizes, channels, parseInt, colour) == Failure(UnitsNotSubscriptable)
  {
    var keyDict := KeyDict(tree);
    assert keyDict[DefaultScalingUnit] == KeyEntries(tree, DefaultScalingUnit);
    if keyDict[DefaultScalingUnit].Some? {
      var entries := keyDict[DefaultScalingUnit].value;
      match ScaleAndUnits(entries[0].text, sizes)
      case Failure(_) =>
      case Success(su) => ChannelsNeverFailOnUnits(keyDict, su.0, su.1, channels, channels, parseInt, colour);
    }
  }

  lemma {:induction false} ChannelsNeverFailOnUnits(keyDict: map<MetadataKey, Option<seq<Element>>>, scale: seq<Option<real>>,
                                                    units: Option<string>, n: nat, channels: nat,
                                                    parseInt: string -> Option<int>, colour: int -> string)
    requires forall k :: k in MetadataKeys ==> k in keyDict
    ensures ChannelsUpTo(keyDict, scale, units, n, channels, parseInt, colour) != Failure(UnitsNotSubscriptable)
  {
    if n > 0 {
      ChannelsNeverFailOnUnits(keyDict, scale, units, n - 1, channels, parseInt, colour);
      ChannelEntriesErrors(keyDict, MetadataKeys, n - 1, channels);
    }
  }
}
