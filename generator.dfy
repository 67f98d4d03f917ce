/**
 * The generator form: its default values, the edits of the image-URL list,
 * and the copy of the chosen style into the form's colours and template.
 */
module GeneratorForm {
  import opened Wrappers
  import opened Json
  import opened Schema
  import opened StylePanel

  /** The form's initial values. */
  const FormDefaults: GenerationRequest :=
    GenerationRequest("", "", true, true, false, true, "#667eea", "#764ba2", [], Modern)

  /** Filling in only a name and a description, the form and the schema agree on every other field. */
  lemma {:induction false} FormDefaultsMatchSchema(name: string, description: string, validUrl: string -> bool)
    requires |name| >= MinNameLength && |description| >= MinDescriptionLength
    ensures Validate(JObject(map["name" := JString(name), "description" := JString(description)]), validUrl)
         == Ok(FormDefaults.(name := name, description := description))
  {
    ValidateFillsDefaults(name, description, validUrl);
  }

  /** `[...urls, ""]`. */
  function AddImageUrl(urls: seq<string>): (r: seq<string>)
    ensures |r| == |urls| + 1 && r[..|urls|] == urls && r[|urls|] == ""
  {
    urls + [""]
  }

  /** `urls.filter((_, i) => i !== index)`, with `from` the position of `urls[0]`. */
  function KeepOthers(urls: seq<string>, index: int, from: int): seq<string> {
    if urls == [] then []
    else (if from == index then [] else [urls[0]]) + KeepOthers(urls[1..], index, from + 1)
  }

  function RemoveImageUrl(urls: seq<string>, index: int): seq<string> {
    KeepOthers(urls, index, 0)
  }

  /** The filter deletes the entry at `index`, and keeps the list as it is when there is none there. */
  lemma {:induction false} KeepOthersDeletes(urls: seq<string>, index: int, from: int)
    ensures from <= index < from + |urls| ==>
      KeepOthers(urls, index, from) == urls[..index - from] + urls[index - from + 1..]
    ensures !(from <= index < from + |urls|) ==> KeepOthers(urls, index, from) == urls
  {
    if urls != [] {
      KeepOthersDeletes(urls[1..], index, from + 1);
      if from == index {
        assert urls[..0] + urls[1..] == urls[1..];
      } else if from < index < from + |urls| {
        assert [urls[0]] + (urls[1..][..index - from - 1] + urls[1..][index - from..])
            == urls[..index - from] + urls[index - from + 1..];
      } else {
        assert [urls[0]] + urls[1..] == urls;
      }
    }
  }

  /** Removal deletes exactly position `index`, or changes nothing when `index` is out of range. */
  lemma {:induction false} RemoveImageUrlSpec(urls: seq<string>, index: int)
    ensures 0 <= index < |urls| ==> RemoveImageUrl(urls, index) == urls[..index] + urls[index + 1..]
    ensures 0 <= index < |urls| ==> |RemoveImageUrl(urls, index)| == |urls| - 1
    ensures !(0 <= index < |urls|) ==> RemoveImageUrl(urls, index) == urls
  {
    KeepOthersDeletes(urls, index, 0);
  }

  /** Removing the entry just added gives back the list. */
  lemma {:induction false} RemoveUndoesAdd(urls: seq<string>)
    ensures RemoveImageUrl(AddImageUrl(urls), |urls|) == urls
  {
    RemoveImageUrlSpec(AddImageUrl(urls), |urls|);
  }

  /**
   * `[...urls]` then `copy[index] = value`. An index outside the list is
   * treated as leaving the list as it is.
   */
  method UpdateImageUrl(urls: seq<string>, index: int, value: string) returns (r: seq<string>)
    ensures 0 <= index < |urls| ==> r == urls[index := value]
    ensures !(0 <= index < |urls|) ==> r == urls
  {
    var copy := new string[|urls|];
    var i := 0;
    while i < |urls|
      invariant 0 <= i <= |urls|
      invariant copy[..i] == urls[..i]
    {
      copy[i] := urls[i];
      i := i + 1;
    }
    assert copy[..] == urls;
    if 0 <= index < |urls| {
      copy[index] := value;
    }
    r := copy[..];
  }

  /** A request whose colours and template are those of the chosen style; nothing else changes. */
  function SyncStyle(values: GenerationRequest, style: StylePreview): (r: GenerationRequest)
    ensures r.primaryColor == style.primaryColor && r.secondaryColor == style.secondaryColor
    ensures r.styleTemplate == style.template
    ensures r.(primaryColor := values.primaryColor, secondaryColor := values.secondaryColor,
               styleTemplate := values.styleTemplate) == values
  {
    values.(primaryColor := style.primaryColor, secondaryColor := style.secondaryColor,
            styleTemplate := style.template)
  }

  /** The initial style agrees with the form's defaults, so the first copy changes nothing. */
  lemma {:induction false} InitialSyncKeepsDefaults()
    ensures SyncStyle(FormDefaults, InitialStyle) == FormDefaults
  {
  }

  /** A synced form passes the colour rule when the style does. */
  lemma {:induction false} SyncKeepsColoursValid(values: GenerationRequest, style: StylePreview)
    requires ValidStyle(style)
    ensures IsHexColor(SyncStyle(values, style).primaryColor) && IsHexColor(SyncStyle(values, style).secondaryColor)
  {
  }

  /** The form's state: its values and the style chosen in the style tab. */
  class Form {
    var values: GenerationRequest
    var style: StylePreview

    constructor ()
      ensures values == FormDefaults && style == InitialStyle
    {
      values := FormDefaults;
      style := InitialStyle;
    }

    method AddImage()
      modifies this
      ensures values == old(values).(imageUrls := AddImageUrl(old(values).imageUrls))
      ensures style == old(style)
    {
      values := values.(imageUrls := AddImageUrl(values.imageUrls));
    }

    method RemoveImage(index: int)
      modifies this
      ensures values == old(values).(imageUrls := RemoveImageUrl(old(values).imageUrls, index))
      ensures style == old(style)
    {
      values := values.(imageUrls := RemoveImageUrl(values.imageUrls, index));
    }

    method UpdateImage(index: int, value: string)
      modifies this
      ensures 0 <= index < |old(values).imageUrls| ==>
        values == old(values).(imageUrls := old(values).imageUrls[index := value])
      ensures !(0 <= index < |old(values).imageUrls|) ==> values == old(values)
      ensures style == old(style)
    {
      var urls := UpdateImageUrl(values.imageUrls, index, value);
      values := values.(imageUrls := urls);
    }

    /** A new style, copied into the form's colours and template. */
    method ChangeStyle(s: StylePreview)
      modifies this
      ensures style == s && values == SyncStyle(old(values), s)
    {
      style := s;
      values := SyncStyle(values, s);
    }
  }
}
