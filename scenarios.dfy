/** Client code: what a caller can conclude about the page from the handlers' contracts alone. */
module Scenarios {
  import opened Wrappers
  import opened JsStrings
  import opened Sources
  import opened Pipeline
  import opened Page

  /**
   * White space typed before a file is chosen survives the choice, the shortcut is ignored while
   * the read is outstanding, and the JSON content is rendered with the "JSON Data" badge.
   */
  method WhitespaceThenJsonFile()
  {
    var form := new QrForm(s => s == "{\"a\":1}", ".vcf", ".json");
    form.OnTextInput("  ");
    form.OnFileChange(Json, Some(FileRef("data.json", 7)));
    assert form.text == "  " && form.charCount == 2;
    form.Submit("png", true);
    assert form.loading && form.pending == Some(PendingRead(Json, FileRef("data.json", 7)));
    form.OnKeyDown(true, false, "Enter", "svg", true);
    assert form.currentFormat == "png";
    form.CompleteRead(Loaded("{\"a\":1}"), true);
    assert !form.loading && form.resultsVisible && !form.errorVisible && form.badge == "JSON Data";
    assert form.rendered == ["{\"a\":1}"];
  }

  /** Typed text without white space at its ends (a URL, say) reaches the renderer as typed, with the "Text/URL" badge. */
  method TextSubmission(url: string)
    requires url != [] && !IsTrimmable(url[0]) && !IsTrimmable(url[|url| - 1])
  {
    var form := new QrForm(s => false, ".vcf", ".json");
    form.OnTextInput(url);
    assert Trim(url) == url by {
      assert [] + url + [] == url;
      TrimOf([], url, []);
    }
    form.Submit("png", true);
    assert form.rendered == [url] && form.badge == "Text/URL";
  }

  /** A JSON file that does not parse never reaches the renderer. */
  method InvalidJsonFile()
  {
    var form := new QrForm(s => false, ".vcf", ".json");
    form.OnFileChange(Json, Some(FileRef("data.json", 3)));
    form.Submit("png", true);
    form.CompleteRead(Loaded("{a"), true);
    assert !form.loading && form.errorText == InvalidJsonMessage && form.rendered == [];
  }

  /** A read that finishes after the text was typed over is still rendered: nothing discards a stale read. */
  method StaleReadIsRendered()
  {
    var form := new QrForm(s => true, ".vcf", ".json");
    form.OnFileChange(Vcf, Some(FileRef("card.vcf", 120)));
    form.Submit("png", true);
    form.OnTextInput("typed later");
    assert form.vcfFile.None? && form.loading;
    form.CompleteRead(Loaded("BEGIN:VCARD"), true);
    assert form.rendered == ["BEGIN:VCARD"] && form.badge == "VCF Contact";
  }
}
