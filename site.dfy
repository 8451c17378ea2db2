/**
 * Site-wide constants: the WhatsApp link built from the company's number,
 * the navigation items, and the ids and ratings of the testimonials and
 * FAQ entries that other components render.
 */
module Site {
  import opened Js
  import opened Seqs

  /** The company's WhatsApp number, "+91 98765 43210", written in groups of three characters. */
  const COMPANY_WHATSAPP: string := "+91" + " 98" + "765" + " 43" + "210"

  lemma CompanyWhatsAppText()
    ensures COMPANY_WHATSAPP == "+91 98765 43210"
  {
  }

  /** `replace(/[^0-9]/g, '')`: keep the decimal digits and drop everything else. */
  function StripNonDigits(s: string): string
  {
    Filter(s, IsDecimalDigit)
  }

  /** The result is made of digits only; it holds exactly the digits of the input, in their order. */
  lemma StripKeepsExactlyDigits(s: string)
    ensures forall i :: 0 <= i < |StripNonDigits(s)| ==> IsDecimalDigit(StripNonDigits(s)[i])
    ensures forall c :: c in StripNonDigits(s) <==> c in s && IsDecimalDigit(c)
    ensures SubSeq(StripNonDigits(s), s)
  {
    forall c ensures c in Filter(s, IsDecimalDigit) <==> c in s && IsDecimalDigit(c) {
      FilterKeeps(s, IsDecimalDigit, c);
    }
    FilterIsSubSeq(s, IsDecimalDigit);
  }

  /** Every digit is kept as often as it occurs; no other character survives. */
  lemma StripKeepsDigitCounts(s: string, c: char)
    ensures multiset(StripNonDigits(s))[c] == if IsDecimalDigit(c) then multiset(s)[c] else 0
  {
    FilterMultiset(s, IsDecimalDigit, c);
  }

  /** Text made only of digits is left unchanged. */
  lemma StripAllDigits(s: string)
    requires forall i :: 0 <= i < |s| ==> IsDecimalDigit(s[i])
    ensures StripNonDigits(s) == s
  {
    FilterAll(s, IsDecimalDigit);
  }

  /** Stripping twice is stripping once. */
  lemma StripIdempotent(s: string)
    ensures StripNonDigits(StripNonDigits(s)) == StripNonDigits(s)
  {
    StripAllDigits(StripNonDigits(s));
  }

  /** Stripping distributes over concatenation. */
  lemma StripAppend(a: string, b: string)
    ensures StripNonDigits(a + b) == StripNonDigits(a) + StripNonDigits(b)
  {
    FilterAppend(a, b, IsDecimalDigit);
  }

  /** The link the WhatsApp buttons open. */
  function WhatsAppLink(number: string): (r: string)
    ensures StartsWith(r, "https://wa.me/")
    ensures r[|"https://wa.me/"|..] == StripNonDigits(number)
  {
    var prefix := "https://wa.me/";
    var r := prefix + StripNonDigits(number);
    assert r[..|prefix|] == prefix;
    r
  }

  /** The company's number gives the link to 919876543210. */
  lemma CompanyWhatsAppLink()
    ensures WhatsAppLink(COMPANY_WHATSAPP) == "https://wa.me/919876543210"
  {
    CompanyWhatsAppDigits();
  }

  /** Stripping "+91 98765 43210" leaves "919876543210". */
  lemma CompanyWhatsAppDigits()
    ensures StripNonDigits(COMPANY_WHATSAPP) == "919876543210"
  {
    var a, b, c, d, e := "+91", " 98", "765", " 43", "210";
    StripGroups();
    StripAppend(a, b);
    StripAppend(a + b, c);
    StripAppend(a + b + c, d);
    StripAppend(a + b + c + d, e);
  }

  /** The number's groups of three, one at a time. */
  lemma StripGroups()
    ensures StripNonDigits("+91") == "91" && StripNonDigits(" 98") == "98"
    ensures StripNonDigits("765") == "765" && StripNonDigits(" 43") == "43"
    ensures StripNonDigits("210") == "210"
  {
  }

  /** A navigation link: its caption and the path or anchor it leads to. */
  datatype NavItem = NavItem(caption: string, href: string)

  const NAVIGATION_ITEMS: seq<NavItem> := [
    NavItem("Home", "/"),
    NavItem("Tours", "/tours"),
    NavItem("Destinations", "/destinations"),
    NavItem("Gallery", "#gallery"),
    NavItem("Reviews", "#testimonials"),
    NavItem("Contact", "/contact")
  ]

  /** The hrefs, which the menus use as keys, are pairwise distinct. */
  lemma NavHrefsDistinct()
    ensures forall i, j :: 0 <= i < j < |NAVIGATION_ITEMS| ==> NAVIGATION_ITEMS[i].href != NAVIGATION_ITEMS[j].href
  {
  }

  /** A testimonial, by its id and star rating; the quoted text is not modelled. */
  datatype Testimonial = Testimonial(id: int, name: string, rating: int)

  const TESTIMONIALS: seq<Testimonial> := [
    Testimonial(1, "Sarah & John Mitchell", 5),
    Testimonial(2, "Emma Rodriguez", 5),
    Testimonial(3, "Dr. James Wilson", 5),
    Testimonial(4, "Yuki & Takeshi Tanaka", 5),
    Testimonial(5, "Maria Gonzalez", 5),
    Testimonial(6, "David Chen", 5)
  ]

  /** Every testimonial has five stars, within the range the stars display. */
  lemma TestimonialRatings()
    ensures forall t :: t in TESTIMONIALS ==> t.rating == 5 && 1 <= t.rating <= 5
  {
  }

  /** The FAQ entries' ids; the questions and answers are not modelled. */
  const FAQ_IDS: seq<int> := [1, 2, 3, 4, 5, 6]

  /** FAQ ids are the distinct numbers 1 to 6. */
  lemma FaqIdsDistinct()
    ensures NoDup(FAQ_IDS)
    ensures forall i :: 0 <= i < |FAQ_IDS| ==> FAQ_IDS[i] == i + 1
  {
  }
}

/**
 * The header's active-link test: the home link is active only on the home
 * page, any other link wherever the location starts with its href.
 */
module Header {
  import opened Js
  import opened Site

  /** `isActive`. */
  predicate IsActive(location: string, href: string)
  {
    if href == "/" then location == "/" else StartsWith(location, href)
  }

  /** "/" is active iff the location is exactly "/". */
  lemma RootActiveIff(location: string)
    ensures IsActive(location, "/") <==> location == "/"
  {
  }

  /** Any other href is active iff it is a prefix of the location. */
  lemma OtherActiveIff(location: string, href: string)
    requires href != "/"
    ensures IsActive(location, href) <==> |href| <= |location| && location[..|href|] == href
  {
  }

  /** The test is a plain string prefix, not a path segment. */
  lemma PlainPrefix()
    ensures IsActive("/tours/x", "/tours") && IsActive("/toursX", "/tours")
    ensures !IsActive("/tours", "/")
  {
    assert "/tours/x"[..6] == "/tours";
    assert "/toursX"[..6] == "/tours";
  }

  /** Two texts that differ in one of their first two characters are never prefixes of one location. */
  lemma NotBothPrefixes(location: string, a: string, b: string)
    requires |a| >= 2 && |b| >= 2 && (a[0] != b[0] || a[1] != b[1])
    ensures !(StartsWith(location, a) && StartsWith(location, b))
  {
    assert StartsWith(location, a) ==> location[0] == a[0] && location[1] == a[1] by {
      if StartsWith(location, a) {
        assert location[..|a|][0] == location[0] && location[..|a|][1] == location[1];
      }
    }
    assert StartsWith(location, b) ==> location[0] == b[0] && location[1] == b[1] by {
      if StartsWith(location, b) {
        assert location[..|b|][0] == location[0] && location[..|b|][1] == location[1];
      }
    }
  }

  /** The hrefs other than "/" are at least two characters long. */
  lemma NavHrefLength(j: int)
    requires 1 <= j < |NAVIGATION_ITEMS|
    ensures |NAVIGATION_ITEMS[j].href| >= 2
  {
  }

  /** The hrefs other than "/" are told apart by their first two characters. */
  lemma NavHrefKeys(i: int, j: int)
    requires 1 <= i < j < |NAVIGATION_ITEMS|
    ensures NAVIGATION_ITEMS[i].href[0] != NAVIGATION_ITEMS[j].href[0] ||
            NAVIGATION_ITEMS[i].href[1] != NAVIGATION_ITEMS[j].href[1]
  {
    NavHrefLength(i);
    NavHrefLength(j);
  }

  /** At every location at most one navigation item is highlighted. */
  lemma AtMostOneActive(location: string, i: int, j: int)
    requires 0 <= i < j < |NAVIGATION_ITEMS|
    ensures !(IsActive(location, NAVIGATION_ITEMS[i].href) && IsActive(location, NAVIGATION_ITEMS[j].href))
  {
    if i == 0 {
      NavHrefLength(j);
      var b := NAVIGATION_ITEMS[j].href;
      assert StartsWith(location, b) ==> |location| >= 2;
    } else {
      NavHrefLength(i);
      NavHrefLength(j);
      NavHrefKeys(i, j);
      NotBothPrefixes(location, NAVIGATION_ITEMS[i].href, NAVIGATION_ITEMS[j].href);
    }
  }
}
