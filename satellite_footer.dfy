// network/telephony/satellite/SatelliteSettingFooterController: the disclaimer footer of the
// satellite page, built as an HTML list from string resources chosen by carrier config.

module SatelliteFooter {
  import opened Wrappers
  import opened Availability
  import opened SatelliteCarrier

  const ListItemPrefix: string := "<li>&#160;"
  const ListItemSuffix: string := "</li>"

  /** getHtmlStringCombination: the text as one HTML list item. */
  function Wrap(text: string): (item: string)
    ensures |item| == |ListItemPrefix| + |text| + |ListItemSuffix|
  {
    ListItemPrefix + text + ListItemSuffix
  }

  /** A list item is the text between the prefix and the suffix, so the text can be read back. */
  lemma WrapEnclosesText(text: string)
    ensures Wrap(text)[..|ListItemPrefix|] == ListItemPrefix
    ensures Wrap(text)[|ListItemPrefix|..|ListItemPrefix| + |text|] == text
    ensures Wrap(text)[|ListItemPrefix| + |text|..] == ListItemSuffix
  {
  }

  /**
   * The footer sections listed after section 0: 1 to 5 always, 6 when the carrier does not
   * support emergency messaging, 7 when it supports entitlement.
   */
  function FooterSections(config: CarrierConfig): (sections: seq<nat>)
    ensures |sections| >= 5 && sections[..5] == [1, 2, 3, 4, 5]
    ensures 6 in sections <==> !config.GetBoolean(EmergencyMessagingSupported)
    ensures 7 in sections <==> config.GetBoolean(SatelliteEntitlementSupported)
    ensures 0 !in sections
    ensures forall k :: 0 <= k < |sections| ==> 1 <= sections[k] <= 7
    ensures forall j, k :: 0 <= j < k < |sections| ==> sections[j] < sections[k]
  {
    [1, 2, 3, 4, 5]
    + (if !config.GetBoolean(EmergencyMessagingSupported) then [6] else [])
    + (if config.GetBoolean(SatelliteEntitlementSupported) then [7] else [])
  }

  /** The list items of the given sections, in order; `texts[n]` is the text of section n. */
  function ListItems(texts: seq<string>, sections: seq<nat>): (items: string)
    requires forall k :: 0 <= k < |sections| ==> sections[k] < |texts|
    ensures |sections| == 0 <==> items == ""
    ensures |items| >= |sections| * (|ListItemPrefix| + |ListItemSuffix|)
  {
    if |sections| == 0 then ""
    else Wrap(texts[sections[0]]) + ListItems(texts, sections[1..])
  }

  /** The footer text: section 0, a blank line, then the chosen sections as list items. */
  function FooterContent(texts: seq<string>, config: CarrierConfig): (content: string)
    requires |texts| == 8
    ensures |content| >= |texts[0]| + 2 + 5 * (|ListItemPrefix| + |ListItemSuffix|)
    ensures content[..|texts[0]|] == texts[0] && content[|texts[0]|..|texts[0]| + 2] == "\n\n"
    ensures content[|texts[0]| + 2..] == ListItems(texts, FooterSections(config))
  {
    texts[0] + "\n\n" + ListItems(texts, FooterSections(config))
  }

  /** The footer preference: its summary and its learn-more link. */
  datatype Footer = Footer(summary: Option<string>, learnMoreLink: Option<string>, learnMoreText: bool)

  class SatelliteFooterController {
    var configBundle: CarrierConfig
    var simOperatorName: string

    constructor()
      ensures configBundle == CarrierConfig(None, map[], None) && simOperatorName == ""
    {
      configBundle := CarrierConfig(None, map[], None);
      simOperatorName := "";
    }

    /** init. */
    method Init(config: CarrierConfig, operatorName: string)
      modifies this`configBundle, this`simOperatorName
      ensures configBundle == config && simOperatorName == operatorName
    {
      configBundle := config;
      simOperatorName := operatorName;
    }

    /** getAvailabilityStatus: the footer is always there, never searchable. */
    function GetAvailabilityStatus(): (s: Status)
      ensures s == AvailableUnsearchable
    {
      AvailableUnsearchable
    }

    /**
     * getFooterContent. `texts` are the string resources of sections 0 to 7, section 7 already
     * formatted with the operator name.
     */
    method GetFooterContent(texts: seq<string>) returns (result: string)
      requires |texts| == 8
      ensures result == FooterContent(texts, configBundle)
    {
      var head := texts[0] + "\n\n";
      result := head;
      ghost var shown: seq<nat> := [];
      assert result == head + ListItems(texts, shown);
      AddListItem(texts, head, result, shown, 1);
      result := result + Wrap(texts[1]);
      shown := shown + [1];
      AddListItem(texts, head, result, shown, 2);
      result := result + Wrap(texts[2]);
      shown := shown + [2];
      AddListItem(texts, head, result, shown, 3);
      result := result + Wrap(texts[3]);
      shown := shown + [3];
      AddListItem(texts, head, result, shown, 4);
      result := result + Wrap(texts[4]);
      shown := shown + [4];
      AddListItem(texts, head, result, shown, 5);
      result := result + Wrap(texts[5]);
      shown := shown + [5];
      assert shown == [1, 2, 3, 4, 5];
      if !configBundle.GetBoolean(EmergencyMessagingSupported) {
        AddListItem(texts, head, result, shown, 6);
        result := result + Wrap(texts[6]);
        shown := shown + [6];
      }
      if configBundle.GetBoolean(SatelliteEntitlementSupported) {
        AddListItem(texts, head, result, shown, 7);
        result := result + Wrap(texts[7]);
        shown := shown + [7];
      }
      assert shown == FooterSections(configBundle);
    }

    /**
     * updateFooterContent for a screen whose footer preference is `footer`. The redirect URL is
     * read without a default, so a carrier config lacking the key fails with a
     * NullPointerException after the summary is set.
     */
    method UpdateFooterContent(footer: Option<Footer>, texts: seq<string>)
      returns (r: Result<Option<Footer>>)
      requires |texts| == 8
      ensures footer.None? ==> r == Success(None)
      ensures footer.Some? && configBundle.informationRedirectUrl.None? ==>
        r == Failure("NullPointerException")
      ensures footer.Some? && configBundle.informationRedirectUrl == Some("") ==>
        r == Success(Some(footer.value.(summary := Some(FooterContent(texts, configBundle)))))
      ensures footer.Some? && configBundle.informationRedirectUrl.Some? && configBundle.informationRedirectUrl.value != "" ==>
        r == Success(Some(footer.value.(summary := Some(FooterContent(texts, configBundle)),
                                        learnMoreLink := configBundle.informationRedirectUrl,
                                        learnMoreText := true)))
    {
      if footer.None? {
        return Success(None);
      }
      var content := GetFooterContent(texts);
      var updated := footer.value.(summary := Some(content));
      var link := configBundle.informationRedirectUrl;
      if link.None? {
        return Failure("NullPointerException");
      }
      if link.value == "" {
        return Success(Some(updated));
      }
      updated := updated.(learnMoreLink := link, learnMoreText := true);
      return Success(Some(updated));
    }
  }

  /** Appending the list item of section n to text built so far lists one more section. */
  lemma AddListItem(texts: seq<string>, head: string, built: string, shown: seq<nat>, n: nat)
    requires forall k :: 0 <= k < |shown| ==> shown[k] < |texts|
    requires n < |texts|
    requires built == head + ListItems(texts, shown)
    ensures built + Wrap(texts[n]) == head + ListItems(texts, shown + [n])
  {
    ListItemsAppend(texts, shown, n);
    var items, item := ListItems(texts, shown), Wrap(texts[n]);
    assert (head + items) + item == head + (items + item);
  }

  /** Listing one more section appends its list item. */
  lemma {:induction false} ListItemsAppend(texts: seq<string>, sections: seq<nat>, n: nat)
    requires forall k :: 0 <= k < |sections| ==> sections[k] < |texts|
    requires n < |texts|
    ensures ListItems(texts, sections + [n]) == ListItems(texts, sections) + Wrap(texts[n])
    decreases |sections|
  {
    if |sections| == 0 {
      assert sections + [n] == [n];
      assert [n][1..] == [];
    } else {
      assert (sections + [n])[1..] == sections[1..] + [n];
      ListItemsAppend(texts, sections[1..], n);
    }
  }
}
