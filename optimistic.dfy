/** The message the chat screen shows the moment the user sends, before
    the gateway confirms it. The random client id and the clock are
    parameters. */
module OptimisticSend {
  import opened Base
  import opened Messages

  /** An attachment as the composer holds it: the file's media type and
      its base64 data, the empty string when there is none. */
  datatype Attachment = Attachment(fileType: string, base64: string)

  /** `OptimisticMessagePayload` */
  datatype OptimisticPayload = OptimisticPayload(clientId: string, optimisticId: string, optimisticMessage: Message)

  predicate HasData(a: Attachment) {
    a.base64 != ""
  }

  function ImageOf(a: Attachment): Part {
    ImagePart(a.fileType, a.base64)
  }

  /** The image parts: one per attachment that has data, in attachment order. */
  function ImageParts(attachments: seq<Attachment>): seq<Part> {
    if attachments == [] then []
    else (if HasData(attachments[0]) then [ImageOf(attachments[0])] else []) + ImageParts(attachments[1..])
  }

  /** The image parts are exactly the attachments that have data, each
      turned into an image part, in the same order. */
  lemma {:induction false} ImagePartsFollowAttachments(attachments: seq<Attachment>)
    ensures var r := ImageParts(attachments);
            var kept := Filter(attachments, HasData);
            |r| == |kept| && forall i :: 0 <= i < |r| ==> r[i] == ImageOf(kept[i])
  {
    if attachments != [] {
      var a := attachments[0];
      var rest := attachments[1..];
      ImagePartsFollowAttachments(rest);
      if HasData(a) {
        assert ImageParts(attachments) == [ImageOf(a)] + ImageParts(rest);
        assert Filter(attachments, HasData) == [a] + Filter(rest, HasData);
      } else {
        assert ImageParts(attachments) == ImageParts(rest);
        assert Filter(attachments, HasData) == Filter(rest, HasData);
      }
    }
  }

  lemma {:induction false} ImagePartsAppend(a: seq<Attachment>, b: seq<Attachment>)
    ensures ImageParts(a + b) == ImageParts(a) + ImageParts(b)
  {
    if a == [] {
      assert a + b == b;
    } else {
      assert (a + b)[0] == a[0];
      assert (a + b)[1..] == a[1..] + b;
      ImagePartsAppend(a[1..], b);
    }
  }

  /** The text part after the images: the untrimmed body when it is not
      blank, an empty text when there are attachments, else none. */
  function TrailingText(body: string, attachments: seq<Attachment>): seq<Part> {
    if Trim(body) != "" then [TextPart(body)]
    else if |attachments| > 0 then [TextPart("")]
    else []
  }

  function OptimisticContent(body: string, attachments: seq<Attachment>): seq<Part> {
    ImageParts(attachments) + TrailingText(body, attachments)
  }

  /** The attachment loop of `createOptimisticMessage`: one image part
      per attachment whose data is not empty, in order. */
  method CollectImages(attachments: seq<Attachment>) returns (content: seq<Part>)
    ensures content == ImageParts(attachments)
  {
    content := [];
    var i := 0;
    while i < |attachments|
      invariant 0 <= i <= |attachments|
      invariant content == ImageParts(attachments[..i])
    {
      var att := attachments[i];
      assert attachments[..i + 1] == attachments[..i] + [att];
      ImagePartsAppend(attachments[..i], [att]);
      if att.base64 != "" {
        content := content + [ImagePart(att.fileType, att.base64)];
      }
      i := i + 1;
    }
    assert attachments[..i] == attachments;
  }

  /** `createOptimisticMessage` with `crypto.randomUUID()` passed in as
      `uuid` and `Date.now()` as `now`; absent attachments are the empty
      list. */
  method CreateOptimisticMessage(body: string, attachments: seq<Attachment>, uuid: string, now: int)
    returns (r: OptimisticPayload)
    ensures r.clientId == uuid && r.optimisticId == "opt-" + uuid
    ensures r.optimisticMessage
            == EmptyMessage.(role := Has("user"), content := Has(OptimisticContent(body, attachments)),
                             optimisticId := Has("opt-" + uuid), clientId := Has(uuid),
                             status := Has("sending"), timestamp := Has(Number(now)))
  {
    var clientId := uuid;
    var optimisticId := "opt-" + clientId;
    var content: seq<Part> := [];
    if |attachments| > 0 {
      content := CollectImages(attachments);
    }
    if Trim(body) != "" {
      content := content + [TextPart(body)];
    } else if |attachments| > 0 {
      content := content + [TextPart("")];
    }
    assert content == OptimisticContent(body, attachments);
    var message := EmptyMessage.(role := Has("user"), content := Has(content), optimisticId := Has(optimisticId),
                                 clientId := Has(clientId), status := Has("sending"), timestamp := Has(Number(now)));
    return OptimisticPayload(clientId, optimisticId, message);
  }

  /** The content is the image parts, then at most one text part: the
      body when it has a non-space character, an empty text when it is
      blank and there are attachments, nothing otherwise. */
  lemma OptimisticContentShape(body: string, attachments: seq<Attachment>)
    ensures var c := OptimisticContent(body, attachments);
            var images := ImageParts(attachments);
            c[..|images|] == images
            && (!AllSpace(body) ==> c == images + [TextPart(body)])
            && (AllSpace(body) && |attachments| > 0 ==> c == images + [TextPart("")])
            && (AllSpace(body) && |attachments| == 0 ==> c == [])
  {
    TrimEmptyIffBlank(body);
  }

  /** Every image part comes before every text part. */
  lemma ImagesBeforeText(body: string, attachments: seq<Attachment>)
    ensures var c := OptimisticContent(body, attachments);
            forall i, j :: 0 <= i < j < |c| && c[i].TextPart? ==> !c[j].ImagePart?
  {
    var c := OptimisticContent(body, attachments);
    var images := ImageParts(attachments);
    ImagePartsFollowAttachments(attachments);
    assert forall k :: 0 <= k < |images| ==> c[k].ImagePart?;
    assert forall k :: |images| <= k < |c| ==> c[k].TextPart?;
  }
}
