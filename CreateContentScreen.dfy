/** Posting content from an event, mobile-client/src/screens/CreateContentScreen.tsx: the
    checks submitContent makes before uploading, the tags parsed from the comma-separated
    text, the permissions object, and the multipart form handed to uploadContent. The
    form is kept as its fields; JSON encoding is not modelled. */
module CreateContentScreen {
  import opened Wrappers
  import opened Strings

  datatype ContentTag = ContentTag(id: string, name: string, kind: string, brandId: string, eventId: string)

  datatype Permissions = Permissions(allowBrandAccess: bool, allowCommercialUse: bool, allowModification: bool,
                                     allowSocialSharing: bool, expirationDays: int)

  /** The multipart body: event, caption, tags, permissions and the media part. */
  datatype Upload = Upload(eventId: string, caption: string, tags: seq<ContentTag>, permissions: Permissions,
                           mediaUri: string, mediaType: string, mediaName: string)

  /** The tag built from the segment at `index`. */
  function TagAt(segment: string, index: nat, eventId: string): ContentTag {
    ContentTag("tag_" + NatToString(index), Trim(segment, JsSpace), "category", "1", eventId)
  }

  /** The tags of the comma-separated text, one per segment, numbered from 0. */
  function ParseTags(tags: string, eventId: string): (r: seq<ContentTag>)
    ensures |r| == Count(tags, ',') + 1
    ensures forall i :: 0 <= i < |r| ==> r[i] == TagAt(Split(tags, ',')[i], i, eventId)
  {
    var parts := Split(tags, ',');
    seq(|parts|, i requires 0 <= i < |parts| => TagAt(parts[i], i, eventId))
  }

  /** Every tag is a trimmed segment of type "category" for brand "1" and this event. */
  lemma TagShape(tags: string, eventId: string, i: nat)
    requires i < |ParseTags(tags, eventId)|
    ensures var t := ParseTags(tags, eventId)[i];
      t.id == "tag_" + NatToString(i) && t.kind == "category" && t.brandId == "1" && t.eventId == eventId
      && ',' !in t.name && (t.name != [] ==> !JsSpace(t.name[0]) && !JsSpace(t.name[|t.name| - 1]))
  {
    var seg := Split(tags, ',')[i];
    assert ',' !in seg;
  }

  /** Empty tag text still yields one tag, with an empty name. */
  lemma EmptyTagsOneTag(eventId: string)
    ensures ParseTags("", eventId) == [ContentTag("tag_0", "", "category", "1", eventId)]
  {
    var r := ParseTags("", eventId);
    EmptyTagText(eventId);
    assert r[0] == TagAt("", 0, eventId);
    assert r == [r[0]];
  }

  /** The one segment of empty text gives the first tag, with an empty name. */
  lemma EmptyTagText(eventId: string)
    ensures Count("", ',') == 0 && Split("", ',') == [""]
    ensures TagAt("", 0, eventId) == ContentTag("tag_0", "", "category", "1", eventId)
  {
    assert NatToString(0) == "0";
    assert Trim("", JsSpace) == "";
  }

  /** The toggles as the screen starts: brand access, modification and social sharing on,
      commercial use off. */
  const DefaultToggles: (bool, bool, bool, bool) := (true, false, true, true)

  function PermissionsOf(toggles: (bool, bool, bool, bool)): (p: Permissions)
    ensures p.expirationDays == 30
    ensures (p.allowBrandAccess, p.allowCommercialUse, p.allowModification, p.allowSocialSharing) == toggles
  {
    Permissions(toggles.0, toggles.1, toggles.2, toggles.3, 30)
  }

  /** Where the screen goes when submitContent finishes. */
  datatype ContentResult = ContentResult(success: bool, message: string, eventId: string)

  /** The ContentResult screen after the try block succeeds, or after its catch. */
  function Outcome(failed: bool, eventId: string): (r: ContentResult)
    ensures r.success == !failed && r.eventId == eventId
    ensures r.message == (if failed then "Failed to upload content. Please try again."
                          else "Your content has been uploaded successfully!")
  {
    if failed then ContentResult(false, "Failed to upload content. Please try again.", eventId)
    else ContentResult(true, "Your content has been uploaded successfully!", eventId)
  }

  /** The first check submitContent fails, in order: image, caption, token. */
  function ValidationError(image: Option<string>, caption: string, token: Option<string>): (e: Option<string>)
    ensures e == Some("Please select an image") <==> image.None? || image == Some("")
    ensures e.None? <==> (image.Some? && image.value != "" && Trim(caption, JsSpace) != ""
                          && token.Some? && token.value != "")
  {
    if image.None? || image.value == "" then Some("Please select an image")
    else if Trim(caption, JsSpace) == "" then Some("Please add a caption")
    else if token.None? || token.value == "" then Some("Authentication token not found. Please login again.")
    else None
  }

  class CreateContentController {
    const eventId: string
    var caption: string
    var tags: string
    var toggles: (bool, bool, bool, bool)
    var selectedImage: Option<string>
    var loading: bool
    var alerts: seq<(string, string)>
    /** What base64ToFile was asked to write, one entry per data: URI converted. */
    var converted: seq<Option<string>>
    var uploads: seq<Upload>
    var results: seq<ContentResult>

    constructor (eventId: string)
      ensures this.eventId == eventId && caption == "" && tags == "" && toggles == DefaultToggles
      ensures selectedImage == None && !loading && alerts == [] && converted == [] && uploads == [] && results == []
    {
      this.eventId := eventId;
      caption := "";
      tags := "";
      toggles := DefaultToggles;
      selectedImage := None;
      loading := false;
      alerts := [];
      converted := [];
      uploads := [];
      results := [];
    }

    /** submitContent with the user's token, the error base64ToFile's file write rejects
        with, and the error uploadContent rejects with. */
    method SubmitContent(token: Option<string>, writeError: Option<string>, uploadError: Option<string>)
      modifies this
      ensures caption == old(caption) && tags == old(tags) && toggles == old(toggles) && selectedImage == old(selectedImage)
      ensures ValidationError(selectedImage, caption, token).Some? ==>
        (alerts == old(alerts) + [("Error", ValidationError(selectedImage, caption, token).value)]
         && uploads == old(uploads) && results == old(results) && converted == old(converted) && loading == old(loading))
      ensures ValidationError(selectedImage, caption, token).None? ==>
        (var uri := selectedImage.value;
         var form := Upload(eventId, caption, ParseTags(tags, eventId), PermissionsOf(toggles), uri, "image/jpeg", "content.jpg");
         var writeFails := StartsWith(uri, "data:") && writeError.Some?;
         alerts == old(alerts) && !loading
         && (StartsWith(uri, "data:") ==> converted == old(converted) + [DataPart(uri)])
         && (!StartsWith(uri, "data:") ==> converted == old(converted))
         && uploads == old(uploads) + (if writeFails then [] else [form])
         && results == old(results) + [Outcome(writeFails || uploadError.Some?, eventId)])
    {
      var invalid := ValidationError(selectedImage, caption, token);
      if invalid.Some? {
        alerts := alerts + [("Error", invalid.value)];
        return;
      }
      var form := Upload(eventId, caption, ParseTags(tags, eventId), PermissionsOf(toggles),
                         selectedImage.value, "image/jpeg", "content.jpg");
      Send(form, writeError, uploadError);
    }

    /** The part of submitContent after its checks: the data: URI conversion, the upload
        (whose media part keeps the original URI) and the result screen. A rejected file
        write skips the upload and reaches the catch, as a rejected upload does. */
    method Send(form: Upload, writeError: Option<string>, uploadError: Option<string>)
      modifies this
      ensures caption == old(caption) && tags == old(tags) && toggles == old(toggles) && selectedImage == old(selectedImage)
      ensures alerts == old(alerts) && !loading
      ensures StartsWith(form.mediaUri, "data:") ==> converted == old(converted) + [DataPart(form.mediaUri)]
      ensures !StartsWith(form.mediaUri, "data:") ==> converted == old(converted)
      ensures StartsWith(form.mediaUri, "data:") && writeError.Some? ==>
        uploads == old(uploads) && results == old(results) + [Outcome(true, eventId)]
      ensures !(StartsWith(form.mediaUri, "data:") && writeError.Some?) ==>
        uploads == old(uploads) + [form] && results == old(results) + [Outcome(uploadError.Some?, eventId)]
    {
      loading := true;
      var uploadUri := form.mediaUri;
      if StartsWith(uploadUri, "data:") {
        converted := converted + [DataPart(uploadUri)];
        if writeError.Some? {
          results := results + [Outcome(true, eventId)];
          loading := false;
          return;
        }
      }
      uploads := uploads + [form];
      results := results + [Outcome(uploadError.Some?, eventId)];
      loading := false;
    }
  }

  /** `uri.split(',')[1]`: the text after the first comma up to the next, or undefined. */
  function DataPart(uri: string): Option<string> {
    var parts := Split(uri, ',');
    if |parts| > 1 then Some(parts[1]) else None
  }
}
