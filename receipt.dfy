/** The string helpers of src/components/ReceiptModal.tsx: `forceAttachment`,
    which asks the image host to serve a receipt as a download, and the file
    name the download link is given. Creating and clicking the link is DOM
    work and is not modelled; the current date is a parameter. */
module Receipt {
  import opened Wrappers

  const Upload: string := "/upload/"
  const Attachment: string := "/upload/fl_attachment/"

  /** `pat` occurs in `s` starting at index `i`. */
  predicate OccursAt(s: string, pat: string, i: int)
  {
    0 <= i && i + |pat| <= |s| && s[i..i + |pat|] == pat
  }

  /** `s.indexOf(pat, from)`: the first index at or after `from` where `pat`
      occurs, or None for -1. */
  function IndexOf(s: string, pat: string, from: nat): (r: Option<nat>)
    ensures r.Some? ==> from <= r.value && OccursAt(s, pat, r.value)
    ensures r.Some? ==> forall j :: from <= j < r.value ==> !OccursAt(s, pat, j)
    ensures r.None? ==> forall j :: from <= j ==> !OccursAt(s, pat, j)
    decreases |s| - from
  {
    if from + |pat| > |s| then None
    else if s[from..from + |pat|] == pat then Some(from)
    else IndexOf(s, pat, from + 1)
  }

  /** Whether `pat` occurs anywhere in `s`. */
  predicate Includes(s: string, pat: string)
  {
    IndexOf(s, pat, 0).Some?
  }

  /** `includes` holds exactly when the pattern occurs somewhere. */
  lemma IncludesIff(s: string, pat: string)
    ensures Includes(s, pat) <==> exists i :: OccursAt(s, pat, i)
  {
    if exists i :: OccursAt(s, pat, i) {
      var i :| OccursAt(s, pat, i);
      assert 0 <= i;
    }
  }

  /** `forceAttachment(url)`: a URL without `/upload/` is returned as it is;
      otherwise its first `/upload/` becomes `/upload/fl_attachment/` and the
      text around it is kept. */
  function ForceAttachment(url: string): (r: string)
    ensures !Includes(url, Upload) ==> r == url
    ensures Includes(url, Upload) ==>
      var i := IndexOf(url, Upload, 0).value;
      && |r| == |url| + 14
      && OccursAt(r, Attachment, i)
      && r[..i] == url[..i]
      && r[i + |Attachment|..] == url[i + |Upload|..]
  {
    match IndexOf(url, Upload, 0)
    case None => url
    case Some(i) => url[..i] + Attachment + url[i + |Upload|..]
  }

  /** The result names the attachment whenever the input names an upload. */
  lemma {:induction false} ForcedIncludesAttachment(url: string)
    ensures Includes(url, Upload) ==> Includes(ForceAttachment(url), Attachment)
  {
    if Includes(url, Upload) {
      var i := IndexOf(url, Upload, 0).value;
      IncludesIff(ForceAttachment(url), Attachment);
      assert OccursAt(ForceAttachment(url), Attachment, i);
    }
  }

  /** The attachment segment itself starts with `/upload/`, so applying
      `forceAttachment` again inserts a second `fl_attachment/`: the
      transformation is not idempotent. */
  lemma {:induction false} ForceAttachmentTwice(url: string)
    requires Includes(url, Upload)
    ensures |ForceAttachment(ForceAttachment(url))| == |url| + 28
    ensures ForceAttachment(ForceAttachment(url)) != ForceAttachment(url)
  {
    var r := ForceAttachment(url);
    var i := IndexOf(url, Upload, 0).value;
    assert r[i..i + |Upload|] == r[i..i + |Attachment|][..|Upload|];
    assert OccursAt(r, Upload, i);
    IncludesIff(r, Upload);
  }

  /** `s.split('/').pop()`: the text after the last `/`, or all of `s` when
      it has none. */
  function LastSegment(s: string): (r: string)
    ensures '/' !in r
    ensures |r| <= |s| && r == s[|s| - |r|..]
    ensures |r| < |s| ==> s[|s| - |r| - 1] == '/'
  {
    if s == [] || s[|s| - 1] == '/' then []
    else LastSegment(s[..|s| - 1]) + [s[|s| - 1]]
  }

  /** The last segment of a concatenation: that of the second part when it
      holds a `/`, otherwise the first part's last segment continued by the
      whole second part. */
  lemma {:induction false} LastSegmentAppend(a: string, b: string)
    ensures LastSegment(a + b) == if '/' in b then LastSegment(b) else LastSegment(a) + b
    decreases |b|
  {
    if b != [] {
      var n := |b|;
      var init := b[..n - 1];
      assert (a + b)[..|a + b| - 1] == a + init;
      assert b == init + [b[n - 1]];
      LastSegmentAppend(a, init);
      if b[n - 1] != '/' {
        assert '/' in b <==> '/' in init;
        if '/' in init {
          assert LastSegment(b) == LastSegment(init) + [b[n - 1]];
        }
      }
    } else {
      assert a + b == a;
    }
  }

  /** Whatever precedes a `/` does not affect the last segment. */
  lemma {:induction false} LastSegmentAfterSlash(p: string, rest: string)
    requires p != [] && p[|p| - 1] == '/'
    ensures LastSegment(p + rest) == LastSegment(rest)
  {
    LastSegmentAppend(p, rest);
  }

  /** `forceAttachment` never changes the last segment, so the downloaded
      file keeps the name it has on the image host. */
  lemma {:induction false} ForceKeepsLastSegment(url: string)
    ensures LastSegment(ForceAttachment(url)) == LastSegment(url)
  {
    if Includes(url, Upload) {
      var i := IndexOf(url, Upload, 0).value;
      var rest := url[i + |Upload|..];
      var before := url[..i] + Upload;
      var after := url[..i] + Attachment;
      assert url == before + rest by {
        assert url[i..i + |Upload|] == Upload;
        assert url == url[..i] + url[i..i + |Upload|] + rest;
      }
      assert ForceAttachment(url) == after + rest;
      LastSegmentAfterSlash(before, rest);
      LastSegmentAfterSlash(after, rest);
    }
  }

  /** `a.download`: the last segment of the download URL, or
      `receipt_<today>.jpg` when that segment is empty. */
  function DownloadName(dlUrl: string, today: string): (name: string)
    ensures LastSegment(dlUrl) != "" ==> name == LastSegment(dlUrl)
    ensures LastSegment(dlUrl) == "" ==> name == "receipt_" + today + ".jpg"
  {
    Or(LastSegment(dlUrl), "receipt_" + today + ".jpg")
  }

  /** The fallback name is used exactly for an empty URL or one that ends
      in `/`; otherwise the name holds no `/` and ends the URL. */
  lemma {:induction false} DownloadNameFallback(dlUrl: string, today: string)
    ensures LastSegment(dlUrl) == "" <==> dlUrl == "" || dlUrl[|dlUrl| - 1] == '/'
    ensures LastSegment(dlUrl) != "" ==>
      var name := DownloadName(dlUrl, today);
      '/' !in name && |name| <= |dlUrl| && dlUrl[|dlUrl| - |name|..] == name
  {
  }

  /** `handleDownload`'s name: that of the forced URL, which is the receipt
      URL's own last segment. */
  lemma {:induction false} DownloadNameOfReceipt(receiptUrl: string, today: string)
    ensures DownloadName(ForceAttachment(receiptUrl), today) == DownloadName(receiptUrl, today)
  {
    ForceKeepsLastSegment(receiptUrl);
  }
}
