/**
 * The search endpoint of the menu editor (`menuEditorSearch`): it lists the
 * content store's search results, then the content types whose slug or name
 * matches the query, then the taxonomy options whose label or key matches it,
 * for the editor's "add item" picker.
 *
 * The search results come from the content store and are taken as given;
 * the content-type and taxonomy configuration are given in config order.
 */
module MenuSearch {
  import opened Wrappers
  import opened Php

  /** The content type of a search result, as the record exposes it. */
  datatype RecordType = RecordType(singularSlug: string, singularName: string, iconOne: string)

  /** One result of `searchContent`, through the record's getters. */
  datatype SearchRecord = SearchRecord(
    title: string,
    image: string,
    excerpt: string,
    link: string,
    contentType: RecordType,
    id: int)

  /** A configured content type; `viewless` is None when the key is absent. */
  datatype ContentType = ContentType(slug: string, name: string, viewless: Option<Setting>, iconMany: string)

  /** One entry `key => caption` of a taxonomy's `options`. */
  datatype TaxonomyOption = TaxonomyOption(key: string, caption: string)

  /** A configured taxonomy; `options` is None when it is absent or null. */
  datatype Taxonomy = Taxonomy(slug: string, name: string, options: Option<seq<TaxonomyOption>>)

  /** One entry of the JSON array the endpoint answers with (`kind` is the `type` key). */
  datatype Item =
    | RecordItem(title: string, image: string, body: string, link: string,
                 contenttype: string, kind: string, icon: string, recordId: int)
    | ListingItem(link: string, id: string, title: string, kind: string, icon: string)

  datatype SearchOutcome = AccessDenied | Items(items: seq<Item>)

  /** `str_replace(':', '-', $icon)`: a Font Awesome name as a CSS class. */
  function Icon(icon: string): (r: string)
    ensures ':' !in r
  {
    StrReplaceChar(icon, ':', '-')
  }

  function ItemOfRecord(r: SearchRecord): Item {
    RecordItem(r.title, if TruthyString(r.image) then r.image else "", r.excerpt, r.link,
               r.contentType.singularSlug, r.contentType.singularName,
               Icon(r.contentType.iconOne), r.id)
  }

  /** `!isset($ct['viewless']) || $ct['viewless'] === false`. */
  predicate Viewable(ct: ContentType) {
    ct.viewless == None || ct.viewless == Some(SNull) || ct.viewless == Some(SBool(false))
  }

  /** The content-type test: the slug's match is compared with `false`, the name's is tested for truth. */
  predicate ContentTypeListed(ct: ContentType, query: string) {
    Viewable(ct) && (Found(StrIPos(ct.slug, query)) || TruthyPosition(StrIPos(ct.name, query)))
  }

  function OverviewItem(ct: ContentType): Item {
    ListingItem(ct.slug, ct.slug, ct.name, "Overview", Icon(ct.iconMany))
  }

  /** The taxonomy-option test: both matches are tested for truth. */
  predicate OptionListed(opt: TaxonomyOption, query: string) {
    TruthyPosition(StrIPos(opt.caption, query)) || TruthyPosition(StrIPos(opt.key, query))
  }

  function OptionItem(tax: Taxonomy, opt: TaxonomyOption, icon: string): Item {
    ListingItem(tax.slug + "/" + opt.key, tax.slug + "/" + opt.key, opt.caption,
                tax.name + " (Taxonomy)", icon)
  }

  /**
   * The icon every taxonomy item gets: `$ct` is the content-type loop's
   * variable, left holding the last content type whether or not it matched;
   * with no content types it is undefined, reads as null and becomes "".
   */
  function LeftoverIcon(contentTypes: seq<ContentType>): string {
    IconOf(if contentTypes == [] then None else Some(contentTypes[|contentTypes| - 1]))
  }

  /** `str_replace(':', '-', $ct['icon_many'])` for a `$ct` that may be undefined. */
  function IconOf(ct: Option<ContentType>): string {
    if ct.Some? then Icon(ct.value.iconMany) else ""
  }

  function RecordItems(records: seq<SearchRecord>): seq<Item> {
    if records == [] then []
    else RecordItems(records[..|records| - 1]) + [ItemOfRecord(records[|records| - 1])]
  }

  function ContentTypeItems(contentTypes: seq<ContentType>, query: string): seq<Item> {
    if contentTypes == [] then []
    else
      var ct := contentTypes[|contentTypes| - 1];
      ContentTypeItems(contentTypes[..|contentTypes| - 1], query) +
      (if ContentTypeListed(ct, query) then [OverviewItem(ct)] else [])
  }

  function OptionItems(tax: Taxonomy, options: seq<TaxonomyOption>, query: string, icon: string): seq<Item> {
    if options == [] then []
    else
      var opt := options[|options| - 1];
      OptionItems(tax, options[..|options| - 1], query, icon) +
      (if OptionListed(opt, query) then [OptionItem(tax, opt, icon)] else [])
  }

  function ItemsOfTaxonomy(tax: Taxonomy, query: string, icon: string): seq<Item> {
    if tax.options.Some? then OptionItems(tax, tax.options.value, query, icon) else []
  }

  function TaxonomyItems(taxonomies: seq<Taxonomy>, query: string, icon: string): seq<Item> {
    if taxonomies == [] then []
    else
      TaxonomyItems(taxonomies[..|taxonomies| - 1], query, icon) +
      ItemsOfTaxonomy(taxonomies[|taxonomies| - 1], query, icon)
  }

  /** The endpoint's item list: search results, then content types, then taxonomy options. */
  function SearchItems(records: seq<SearchRecord>, contentTypes: seq<ContentType>,
                       taxonomies: seq<Taxonomy>, query: string): seq<Item>
  {
    RecordItems(records) + ContentTypeItems(contentTypes, query) +
    TaxonomyItems(taxonomies, query, LeftoverIcon(contentTypes))
  }

  /**
   * The controller `menuEditorSearch`: `allowed` is the user service's answer
   * for `files:config`, `records` what `searchContent(query)` returned. Its
   * three `foreach` passes append to one list, in this order.
   */
  method MenuEditorSearch(allowed: bool, query: string, records: seq<SearchRecord>,
                          contentTypes: seq<ContentType>, taxonomies: seq<Taxonomy>)
    returns (outcome: SearchOutcome)
    ensures outcome == if allowed then Items(SearchItems(records, contentTypes, taxonomies, query))
                       else AccessDenied
  {
    if !allowed {
      return AccessDenied;
    }
    var items := SearchPass(records);
    var listings, lastCt := ContentTypePass(contentTypes, query);
    items := items + listings;
    var options := TaxonomyPass(taxonomies, query, lastCt);
    items := items + options;
    return Items(items);
  }

  /** The first pass: every search result becomes an item, in search order. */
  method SearchPass(records: seq<SearchRecord>) returns (items: seq<Item>)
    ensures items == RecordItems(records)
  {
    items := [];
    for i := 0 to |records|
      invariant items == RecordItems(records[..i])
    {
      var record := records[i];
      var image := if TruthyString(record.image) then record.image else "";
      items := items + [RecordItem(record.title, image, record.excerpt, record.link,
                                   record.contentType.singularSlug, record.contentType.singularName,
                                   StrReplaceChar(record.contentType.iconOne, ':', '-'), record.id)];
      assert records[..i + 1][..i] == records[..i];
    }
    assert records[..|records|] == records;
  }

  /**
   * The second pass: an overview item per listed content type, in config
   * order; `lastCt` is what the loop variable `$ct` holds afterwards.
   */
  method ContentTypePass(contentTypes: seq<ContentType>, query: string)
    returns (items: seq<Item>, lastCt: Option<ContentType>)
    ensures items == ContentTypeItems(contentTypes, query)
    ensures lastCt == if contentTypes == [] then None else Some(contentTypes[|contentTypes| - 1])
  {
    items, lastCt := [], None;
    for i := 0 to |contentTypes|
      invariant items == ContentTypeItems(contentTypes[..i], query)
      invariant lastCt == if i == 0 then None else Some(contentTypes[i - 1])
    {
      var ct := contentTypes[i];
      lastCt := Some(ct);
      if Viewable(ct) && (StrIPos(ct.slug, query).Some? || TruthyPosition(StrIPos(ct.name, query))) {
        items := items + [ListingItem(ct.slug, ct.slug, ct.name, "Overview",
                                      StrReplaceChar(ct.iconMany, ':', '-'))];
      }
      assert contentTypes[..i + 1][..i] == contentTypes[..i];
    }
    assert contentTypes[..|contentTypes|] == contentTypes;
  }

  /**
   * The third pass: the items of every taxonomy that has options, in config
   * order, each with the icon of `$ct`, the content type left over from the
   * second pass.
   */
  method TaxonomyPass(taxonomies: seq<Taxonomy>, query: string, lastCt: Option<ContentType>)
    returns (items: seq<Item>)
    ensures items == TaxonomyItems(taxonomies, query, IconOf(lastCt))
  {
    items := [];
    for t := 0 to |taxonomies|
      invariant items == TaxonomyItems(taxonomies[..t], query, IconOf(lastCt))
    {
      var tax := taxonomies[t];
      if tax.options.Some? {
        var found := OptionPass(tax, tax.options.value, query, lastCt);
        items := items + found;
      }
      assert taxonomies[..t + 1][..t] == taxonomies[..t];
    }
    assert taxonomies[..|taxonomies|] == taxonomies;
  }

  /** The inner loop of the third pass, over one taxonomy's options `key => caption`. */
  method OptionPass(tax: Taxonomy, options: seq<TaxonomyOption>, query: string, lastCt: Option<ContentType>)
    returns (items: seq<Item>)
    ensures items == OptionItems(tax, options, query, IconOf(lastCt))
  {
    items := [];
    for j := 0 to |options|
      invariant items == OptionItems(tax, options[..j], query, IconOf(lastCt))
    {
      var key := options[j].key;
      var caption := options[j].caption;
      if TruthyPosition(StrIPos(caption, query)) || TruthyPosition(StrIPos(key, query)) {
        var icon := if lastCt.Some? then StrReplaceChar(lastCt.value.iconMany, ':', '-') else "";
        items := items + [ListingItem(tax.slug + "/" + key, tax.slug + "/" + key, caption,
                                      tax.name + " (Taxonomy)", icon)];
      }
      assert options[..j + 1][..j] == options[..j];
    }
    assert options[..|options|] == options;
  }

  // ---------------------------------------------------------------------------
  // Properties of the item list

  /** The search results are mapped one-to-one, in search order. */
  lemma {:induction false} RecordItemsOneToOne(records: seq<SearchRecord>)
    ensures |RecordItems(records)| == |records|
    ensures forall i :: 0 <= i < |records| ==> RecordItems(records)[i] == ItemOfRecord(records[i])
  {
    if records != [] {
      RecordItemsOneToOne(records[..|records| - 1]);
    }
  }

  /**
   * A content type is listed exactly when it is not viewless and the query
   * is non-empty and occurs in its slug anywhere, or occurs in its name but
   * not at the name's start.
   */
  lemma ContentTypeListedIff(ct: ContentType, query: string)
    ensures ContentTypeListed(ct, query) <==>
            Viewable(ct) && |query| > 0 &&
            ((exists p: nat :: MatchAt(ct.slug, query, p)) ||
             ((exists p: nat :: MatchAt(ct.name, query, p)) && !MatchAt(ct.name, query, 0)))
  {
  }

  /** An item stands in the content-type part exactly when some listed content type yields it. */
  lemma {:induction false} ContentTypeItemsIff(contentTypes: seq<ContentType>, query: string, item: Item)
    ensures item in ContentTypeItems(contentTypes, query) <==>
            exists ct :: ct in contentTypes && ContentTypeListed(ct, query) && item == OverviewItem(ct)
  {
    if contentTypes != [] {
      var prefix := contentTypes[..|contentTypes| - 1];
      ContentTypeItemsIff(prefix, query, item);
      assert contentTypes == prefix + [contentTypes[|contentTypes| - 1]];
    }
  }

  /**
   * A taxonomy option is listed exactly when the query is non-empty and
   * occurs in its caption, or in its key, and not at that string's start.
   */
  lemma OptionListedIff(opt: TaxonomyOption, query: string)
    ensures OptionListed(opt, query) <==>
            |query| > 0 &&
            (((exists p: nat :: MatchAt(opt.caption, query, p)) && !MatchAt(opt.caption, query, 0)) ||
             ((exists p: nat :: MatchAt(opt.key, query, p)) && !MatchAt(opt.key, query, 0)))
  {
  }

  lemma {:induction false} OptionItemsIff(tax: Taxonomy, options: seq<TaxonomyOption>, query: string,
                                          icon: string, item: Item)
    ensures item in OptionItems(tax, options, query, icon) <==>
            exists opt :: opt in options && OptionListed(opt, query) && item == OptionItem(tax, opt, icon)
  {
    if options != [] {
      var prefix := options[..|options| - 1];
      OptionItemsIff(tax, prefix, query, icon, item);
      assert options == prefix + [options[|options| - 1]];
    }
  }

  /**
   * An item stands in the taxonomy part exactly when some listed option of
   * some taxonomy with options yields it: link and id `slug/key`, title the
   * label, type `name (Taxonomy)`, and the given icon.
   */
  lemma {:induction false} TaxonomyItemsIff(taxonomies: seq<Taxonomy>, query: string, icon: string, item: Item)
    ensures item in TaxonomyItems(taxonomies, query, icon) <==>
            exists tax, opt :: tax in taxonomies && tax.options.Some? && opt in tax.options.value &&
                               OptionListed(opt, query) && item == OptionItem(tax, opt, icon)
  {
    if taxonomies != [] {
      var prefix := taxonomies[..|taxonomies| - 1];
      var last := taxonomies[|taxonomies| - 1];
      TaxonomyItemsIff(prefix, query, icon, item);
      if last.options.Some? {
        OptionItemsIff(last, last.options.value, query, icon, item);
      }
      assert taxonomies == prefix + [last];
    }
  }

  /** Every item of the content-type part is an overview item. */
  lemma OverviewPartShape(contentTypes: seq<ContentType>, query: string)
    ensures forall i :: 0 <= i < |ContentTypeItems(contentTypes, query)| ==>
              ContentTypeItems(contentTypes, query)[i].ListingItem? &&
              ContentTypeItems(contentTypes, query)[i].kind == "Overview"
  {
  }

  /** Every item of the taxonomy part has link equal to id, the given icon, and a `(Taxonomy)` type. */
  lemma TaxonomyPartShape(taxonomies: seq<Taxonomy>, query: string, icon: string)
    ensures forall i :: 0 <= i < |TaxonomyItems(taxonomies, query, icon)| ==>
              var item := TaxonomyItems(taxonomies, query, icon)[i];
              item.ListingItem? && item.kind != "Overview" && item.link == item.id && item.icon == icon
  {
    var txi := TaxonomyItems(taxonomies, query, icon);
    forall i | 0 <= i < |txi|
      ensures txi[i].ListingItem? && txi[i].kind != "Overview" && txi[i].link == txi[i].id &&
              txi[i].icon == icon
    {
      TaxonomyItemsIff(taxonomies, query, icon, txi[i]);
      var kind := txi[i].kind;
      assert kind[|kind| - 1] == ')';
    }
  }

  /**
   * The list holds the search results in search order, then only content-type
   * overview items, then only taxonomy items, each taxonomy item carrying the
   * icon of the last configured content type.
   */
  lemma SearchItemsOrder(records: seq<SearchRecord>, contentTypes: seq<ContentType>,
                         taxonomies: seq<Taxonomy>, query: string)
    ensures var items := SearchItems(records, contentTypes, taxonomies, query);
      var n := |records|;
      var m := n + |ContentTypeItems(contentTypes, query)|;
      && n <= m <= |items|
      && (forall i :: 0 <= i < n ==> items[i] == ItemOfRecord(records[i]))
      && (forall i :: n <= i < m ==> items[i].ListingItem? && items[i].kind == "Overview")
      && (forall i :: m <= i < |items| ==>
            items[i].ListingItem? && items[i].kind != "Overview" && items[i].link == items[i].id &&
            items[i].icon == LeftoverIcon(contentTypes))
  {
    var cti := ContentTypeItems(contentTypes, query);
    var txi := TaxonomyItems(taxonomies, query, LeftoverIcon(contentTypes));
    var items := SearchItems(records, contentTypes, taxonomies, query);
    RecordItemsOneToOne(records);
    OverviewPartShape(contentTypes, query);
    TaxonomyPartShape(taxonomies, query, LeftoverIcon(contentTypes));
    var n := |records|;
    var m := n + |cti|;
    assert forall i :: n <= i < m ==> items[i] == cti[i - n];
    assert forall i :: m <= i < |items| ==> items[i] == txi[i - m];
  }

  /** No emitted icon contains ':'. */
  lemma NoIconHasColon(records: seq<SearchRecord>, contentTypes: seq<ContentType>,
                       taxonomies: seq<Taxonomy>, query: string)
    ensures forall item :: item in SearchItems(records, contentTypes, taxonomies, query) ==> ':' !in item.icon
  {
    var items := SearchItems(records, contentTypes, taxonomies, query);
    SearchItemsOrder(records, contentTypes, taxonomies, query);
    RecordItemsOneToOne(records);
    var n := |records|;
    var m := n + |ContentTypeItems(contentTypes, query)|;
    forall item | item in items
      ensures ':' !in item.icon
    {
      var i :| 0 <= i < |items| && items[i] == item;
      if i < n {
        assert item == ItemOfRecord(records[i]);
      } else if i < m {
        assert item in ContentTypeItems(contentTypes, query) by {
          assert item == ContentTypeItems(contentTypes, query)[i - n];
        }
        ContentTypeItemsIff(contentTypes, query, item);
        var ct :| ct in contentTypes && ContentTypeListed(ct, query) && item == OverviewItem(ct);
        assert item.icon == Icon(ct.iconMany);
      } else {
        assert item.icon == LeftoverIcon(contentTypes);
      }
    }
  }

  /**
   * An example: querying "spring" over results "Spring Sale" and
   * "Summer Picnic", a content type Events (slug `events`) and a taxonomy
   * Seasons with the option `spring => Spring`, lists the two results only.
   * The option matches at offset 0 in both its label and its key, which the
   * truth test reads as no match.
   */
  lemma SpringScenario(sale: SearchRecord, picnic: SearchRecord)
    requires sale.title == "Spring Sale" && picnic.title == "Summer Picnic"
    ensures var items := SearchItems([sale, picnic],
                                     [ContentType("events", "Events", None, "fa:calendar")],
                                     [Taxonomy("seasons", "Seasons", Some([TaxonomyOption("spring", "Spring")]))],
                                     "spring");
      items == [ItemOfRecord(sale), ItemOfRecord(picnic)]
  {
    var events := [ContentType("events", "Events", None, "fa:calendar")];
    EventsNotListed();
    SpringOptionNotListed(LeftoverIcon(events));
    var records := [sale, picnic];
    RecordItemsOneToOne(records);
    var found := RecordItems(records);
    assert found[0] == ItemOfRecord(sale) && found[1] == ItemOfRecord(picnic);
    assert found == [ItemOfRecord(sale), ItemOfRecord(picnic)];
  }

  /** Neither "events" nor "Events" contains "spring". */
  lemma EventsNotListed()
    ensures ContentTypeItems([ContentType("events", "Events", None, "fa:calendar")], "spring") == []
  {
    var query := "spring";
    assert StrIPos("events", query) == None by {
      assert Lower("events"[0]) != Lower(query[0]);
      assert !MatchAt("events", query, 0);
    }
    assert StrIPos("Events", query) == None by {
      assert Lower("Events"[0]) != Lower(query[0]);
      assert !MatchAt("Events", query, 0);
    }
  }

  /** "spring" occurs at offset 0 of both the caption and the key, so the option is dropped. */
  lemma SpringOptionNotListed(icon: string)
    ensures TaxonomyItems([Taxonomy("seasons", "Seasons", Some([TaxonomyOption("spring", "Spring")]))],
                          "spring", icon) == []
  {
    var query := "spring";
    assert StrIPos("Spring", query) == Some(0) by {
      assert MatchAt("Spring", query, 0);
    }
    assert StrIPos("spring", query) == Some(0) by {
      assert MatchAt("spring", query, 0);
    }
    var opt := TaxonomyOption("spring", "Spring");
    var seasons := Taxonomy("seasons", "Seasons", Some([opt]));
    assert !OptionListed(opt, query);
    assert [opt][..0] == [] && [seasons][..0] == [];
    assert OptionItems(seasons, [opt], query, icon) == [];
    assert ItemsOfTaxonomy(seasons, query, icon) == [];
  }
}
