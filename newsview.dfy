/** The news page: the request it sends for the current filter, the text
    helpers of the news cards, the category colour and icon lookups, and
    the page state that the filter buttons and the create form change. */
module NewsView {
  import opened Basics
  import opened Text
  import opened Records
  import Seqs
  import Backend

  // ===================== the request for the current filter =====================

  /** URLSearchParams.toString(): each pair as name=value, joined by '&';
      encode stands for the application/x-www-form-urlencoded serializer of
      one string. */
  function EncodePair(encode: string -> string, p: (string, string)): (r: string)
    ensures '=' in r
  {
    assert (encode(p.0) + "=" + encode(p.1))[|encode(p.0)|] == '=';
    encode(p.0) + "=" + encode(p.1)
  }

  /** A single pair serializes as name=value, with no '&'. */
  function SerializeParams(params: seq<(string, string)>, encode: string -> string): (r: string)
    ensures params == [] ==> r == []
    ensures |params| == 1 ==> r == encode(params[0].0) + "=" + encode(params[0].1)
  {
    Join(Seqs.Map(params, p => EncodePair(encode, p)), '&')
  }

  /** The serialized query is empty exactly when there are no pairs. */
  lemma {:induction false} SerializeEmpty(params: seq<(string, string)>, encode: string -> string)
    ensures SerializeParams(params, encode) == [] <==> params == []
  {
    var parts := Seqs.Map(params, p => EncodePair(encode, p));
    if |parts| == 1 {
      assert '=' in parts[0];
    } else if |parts| > 1 {
      assert '=' in parts[0];
      assert |Join(parts, '&')| >= |parts[0]|;
    }
  }

  /** The pairs fetchNews appends: featured=true when showing featured
      posts, whatever the category; otherwise the category unless it is
      'all'. */
  function NewsParams(showFeatured: bool, selectedCategory: string): (params: seq<(string, string)>)
    ensures |params| <= 1
  {
    if showFeatured then [("featured", "true")]
    else if selectedCategory != "all" then [("category", selectedCategory)]
    else []
  }

  /** fetchNews: builds the params and the URL it fetches. */
  method NewsRequest(api: string, showFeatured: bool, selectedCategory: string, encode: string -> string)
    returns (params: seq<(string, string)>, url: string)
    ensures params == NewsParams(showFeatured, selectedCategory)
    ensures url == api + "/news" + (if params == [] then [] else "?" + SerializeParams(params, encode))
    ensures !showFeatured && selectedCategory == "all" ==> url == api + "/news"
    ensures showFeatured ==> url == api + "/news?" + encode("featured") + "=" + encode("true")
  {
    url := api + "/news";
    params := [];
    if showFeatured {
      params := params + [("featured", "true")];
    } else if selectedCategory != "all" {
      params := params + [("category", selectedCategory)];
    }
    SerializeEmpty(params, encode);
    if SerializeParams(params, encode) != [] {
      url := url + "?" + SerializeParams(params, encode);
    }
  }

  /** The first value of a query parameter, as the backend reads it. */
  function QueryValue(params: seq<(string, string)>, name: string): (r: Option<string>)
    ensures r.Some? ==> exists i :: 0 <= i < |params| && params[i] == (name, r.value)
  {
    if params == [] then None
    else if params[0].0 == name then Some(params[0].1)
    else
      var r := QueryValue(params[1..], name);
      assert r.Some? ==> params[1..][0] in params[1..];
      r
  }

  /** The strings the backend accepts for a boolean query parameter
      (compared after lower-casing). */
  function QueryBool(s: string): (r: Option<bool>)
    ensures s == "true" ==> r == Some(true)
    ensures s == "false" ==> r == Some(false)
  {
    var t := Lower(s);
    assert s == "true" ==> t == "true";
    assert s == "false" ==> t == "false";
    if t in ["1", "on", "t", "true", "y", "yes"] then Some(true)
    else if t in ["0", "off", "f", "false", "n", "no"] then Some(false)
    else None
  }

  /** The page shows what it asks for: featured posts when showing
      featured ones, the posts of the selected category when one is
      selected, all posts otherwise (also for a category with an empty
      name, which the backend treats as no category). */
  lemma NewsRequestSelects(showFeatured: bool, selectedCategory: string)
    ensures var params := NewsParams(showFeatured, selectedCategory);
            var featured := if QueryValue(params, "featured").Some? then QueryBool(QueryValue(params, "featured").value) else None;
            Backend.NewsQueryFor(QueryValue(params, "category"), featured) ==
              if showFeatured then Backend.FeaturedPosts
              else if selectedCategory == "all" || selectedCategory == [] then Backend.AllPosts
              else Backend.PostsInCategory(selectedCategory)
  {
    var params := NewsParams(showFeatured, selectedCategory);
    if showFeatured {
      assert QueryValue(params, "featured") == Some("true");
    } else if selectedCategory != "all" {
      assert QueryValue(params, "category") == Some(selectedCategory);
      assert QueryValue(params, "featured") == QueryValue([], "featured");
    }
  }

  // ===================== card text =====================

  const DefaultExcerptLength := 150

  /** "..." as code units. */
  const Ellipsis: seq<CodeUnit> := [0x2E, 0x2E, 0x2E]

  /** truncateText on the UTF-16 code units of the text, which is what
      length and substr count: the text itself when it fits, otherwise its
      first maxLength units (none for a negative maxLength, as substr
      does) followed by "...". The cut may split a surrogate pair. */
  function TruncateText(text: seq<CodeUnit>, maxLength: int): (r: seq<CodeUnit>)
    ensures |text| <= maxLength ==> r == text
    ensures |text| > maxLength ==> |r| >= 3 && r[|r| - 3..] == Ellipsis && r[..|r| - 3] <= text
    ensures |text| > maxLength ==> r == text[..(if maxLength < 0 then 0 else maxLength)] + Ellipsis
    ensures |r| <= (if maxLength < 0 then 0 else maxLength) + 3
  {
    if |text| <= maxLength then text
    else
      var kept := if maxLength < 0 then 0 else maxLength;
      text[..kept] + Ellipsis
  }

  /** Truncating twice is truncating once. */
  lemma TruncateIdempotent(text: seq<CodeUnit>, maxLength: int)
    ensures TruncateText(TruncateText(text, maxLength), maxLength) == TruncateText(text, maxLength)
  {
    if |text| > maxLength && maxLength >= 0 {
      var r := TruncateText(text, maxLength);
      assert r == text[..maxLength] + Ellipsis;
      assert r[..maxLength] == text[..maxLength];
    }
  }

  /** A text of 150 characters is cut when one of them lies outside the
      Basic Multilingual Plane: JavaScript counts it as two. */
  lemma AstralTextIsCut(prefix: string, c: char)
    requires |prefix| == 149 && InBmp(prefix) && (c as int) >= 0x1_0000
    ensures TruncateText(Utf16(prefix + [c]), DefaultExcerptLength) != Utf16(prefix + [c])
  {
    AstralCountsTwice(prefix, c);
  }

  /** The excerpt of a news card, in code units: post.excerpt when it is a
      non-empty string, otherwise the content truncated to 150 units. */
  function CardExcerpt(post: NewsPost): (r: seq<CodeUnit>)
    ensures Backend.Truthy(post.excerpt) ==> r == Utf16(post.excerpt.value)
    ensures !Backend.Truthy(post.excerpt) ==> r == TruncateText(Utf16(post.content), DefaultExcerptLength) && |r| <= 153
  {
    if Backend.Truthy(post.excerpt) then Utf16(post.excerpt.value) else TruncateText(Utf16(post.content), DefaultExcerptLength)
  }

  /** The tags shown on a card: the first three, in order. */
  function CardTags(post: NewsPost): (r: seq<string>)
    ensures |r| == if |post.tags| < 3 then |post.tags| else 3
    ensures r <= post.tags
  {
    if |post.tags| <= 3 then post.tags else post.tags[..3]
  }

  // ===================== category colour and icon =====================

  const DefaultColor := "#8b5cf6"
  const DefaultIcon := "\U{1F4F0}"

  /** Array.prototype.find by name: the index of the first category with
      that name, if any. */
  function FindCategory(categories: seq<NewsCategory>, name: string): (r: Option<nat>)
    ensures r.None? <==> forall i :: 0 <= i < |categories| ==> categories[i].name != name
    ensures r.Some? ==> r.value < |categories| && categories[r.value].name == name &&
                        forall i :: 0 <= i < r.value ==> categories[i].name != name
  {
    if categories == [] then None
    else if categories[0].name == name then Some(0)
    else
      match FindCategory(categories[1..], name)
      case None => None
      case Some(i) => Some(i + 1)
  }

  /** getCategoryColor: the colour of the first category with the name,
      unless it has none or an empty one; the default otherwise. */
  function CategoryColor(categories: seq<NewsCategory>, name: string): (r: string)
    ensures r != []
  {
    match FindCategory(categories, name)
    case None => DefaultColor
    case Some(i) => if Backend.Truthy(categories[i].color) then categories[i].color.value else DefaultColor
  }

  /** getCategoryIcon: the same lookup for the icon, with the newspaper
      emoji as default. */
  function CategoryIcon(categories: seq<NewsCategory>, name: string): (r: string)
    ensures r != []
  {
    match FindCategory(categories, name)
    case None => DefaultIcon
    case Some(i) => if Backend.Truthy(categories[i].icon) then categories[i].icon.value else DefaultIcon
  }

  /** Both lookups use the first category with the name: its colour and
      icon when they are non-empty strings, the defaults otherwise. */
  lemma CategoryLookupFirstMatch(categories: seq<NewsCategory>, name: string, i: nat)
    requires i < |categories| && categories[i].name == name
    requires forall j :: 0 <= j < i ==> categories[j].name != name
    ensures CategoryColor(categories, name) ==
              if Backend.Truthy(categories[i].color) then categories[i].color.value else DefaultColor
    ensures CategoryIcon(categories, name) ==
              if Backend.Truthy(categories[i].icon) then categories[i].icon.value else DefaultIcon
  {
  }

  /** With no category of that name both lookups give the defaults. */
  lemma CategoryLookupNoMatch(categories: seq<NewsCategory>, name: string)
    requires forall i :: 0 <= i < |categories| ==> categories[i].name != name
    ensures CategoryColor(categories, name) == DefaultColor
    ensures CategoryIcon(categories, name) == DefaultIcon
  {
  }

  // ===================== page state =====================

  /** The create form; image is the chosen file's name. */
  datatype CreateForm = CreateForm(
    title: string,
    content: string,
    excerpt: string,
    category: string,
    sourceUrl: string,
    sourceName: string,
    author: string,
    isFeatured: bool,
    tags: string,
    image: Option<string>)

  const EmptyCreateForm := CreateForm("", "", "", "", "", "", "", false, "", None)

  /** The outcome of the POST /news request. */
  datatype CreateResponse = Created | Rejected | NetworkFailure

  /** The state of the News component that its handlers change. */
  class NewsPage {
    var selectedCategory: string
    var showFeatured: bool
    var showCreateModal: bool
    var createForm: CreateForm

    /** The two filters are exclusive: showing featured posts means no
        category is selected. */
    predicate Valid()
      reads this
    {
      showFeatured ==> selectedCategory == "all"
    }

    constructor()
      ensures Valid()
      ensures selectedCategory == "all" && !showFeatured && !showCreateModal && createForm == EmptyCreateForm
    {
      selectedCategory := "all";
      showFeatured := false;
      showCreateModal := false;
      createForm := EmptyCreateForm;
    }

    /** The "All" button. */
    method ClickAll()
      modifies this
      ensures Valid()
      ensures selectedCategory == "all" && !showFeatured
      ensures showCreateModal == old(showCreateModal) && createForm == old(createForm)
    {
      selectedCategory := "all";
      showFeatured := false;
    }

    /** The "Featured" button. */
    method ClickFeatured()
      modifies this
      ensures Valid()
      ensures showFeatured && selectedCategory == "all"
      ensures showCreateModal == old(showCreateModal) && createForm == old(createForm)
    {
      showFeatured := true;
      selectedCategory := "all";
    }

    /** The button of a category. */
    method ClickCategory(name: string)
      modifies this
      ensures Valid()
      ensures selectedCategory == name && !showFeatured
      ensures showCreateModal == old(showCreateModal) && createForm == old(createForm)
    {
      selectedCategory := name;
      showFeatured := false;
    }

    /** The "Create News" button, shown to the admin only. */
    method OpenCreate(admin: bool)
      modifies this
      ensures showCreateModal == (old(showCreateModal) || admin)
      ensures selectedCategory == old(selectedCategory) && showFeatured == old(showFeatured) && createForm == old(createForm)
    {
      if admin {
        showCreateModal := true;
      }
    }

    /** The overlay, the close button and the cancel button of the modal:
        it closes and the form keeps what was typed. */
    method CloseCreate()
      modifies this
      ensures !showCreateModal
      ensures selectedCategory == old(selectedCategory) && showFeatured == old(showFeatured) && createForm == old(createForm)
    {
      showCreateModal := false;
    }

    /** The form inputs: each one replaces the form with a copy in which
        its own field changed. */
    method EditForm(form: CreateForm)
      modifies this
      ensures createForm == form
      ensures selectedCategory == old(selectedCategory) && showFeatured == old(showFeatured) && showCreateModal == old(showCreateModal)
    {
      createForm := form;
    }

    /** The end of handleCreateNews: on success the modal closes, the form
        is back to its initial value and the list is fetched again; on a
        rejected request or a network failure nothing changes. */
    method FinishCreate(response: CreateResponse) returns (refetch: bool)
      modifies this
      ensures refetch <==> response == Created
      ensures response == Created ==> !showCreateModal && createForm == EmptyCreateForm
      ensures response != Created ==> showCreateModal == old(showCreateModal) && createForm == old(createForm)
      ensures selectedCategory == old(selectedCategory) && showFeatured == old(showFeatured)
    {
      refetch := false;
      if response == Created {
        showCreateModal := false;
        createForm := EmptyCreateForm;
        refetch := true;
      }
    }
  }

  /** The button highlighted as active: "All" only when no category is
      selected and featured posts are not shown, so "All" and "Featured"
      are never highlighted together. */
  predicate AllActive(selectedCategory: string, showFeatured: bool) {
    selectedCategory == "all" && !showFeatured
  }

  /** The category button highlighted as active (News.jsx:220): the
      selected category is its name, whether or not featured posts are
      shown. */
  predicate CategoryActive(selectedCategory: string, name: string) {
    selectedCategory == name
  }

  /** In a valid page state (NewsPage.Valid, which every click keeps) the
      highlighted button is the request sent: "All" iff no parameter,
      "Featured" iff featured=true and nothing else is highlighted with it,
      and a category button (other than one named "all") iff that
      category is requested. Without Valid, showing featured posts with a
      category selected would highlight both and request only one. */
  lemma FiltersExclusive(selectedCategory: string, showFeatured: bool, name: string)
    requires showFeatured ==> selectedCategory == "all"
    ensures AllActive(selectedCategory, showFeatured) <==> NewsParams(showFeatured, selectedCategory) == []
    ensures showFeatured <==> NewsParams(showFeatured, selectedCategory) == [("featured", "true")]
    ensures showFeatured && name != "all" ==> !CategoryActive(selectedCategory, name)
    ensures name != "all" && CategoryActive(selectedCategory, name) <==>
              NewsParams(showFeatured, selectedCategory) == [("category", name)]
  {
  }
}
