/** The pure helpers of the site scraper (backend/scrapper.py): routing a page
    to a section folder by keywords, collapsing whitespace, and the name of
    the file a page is saved to. Fetching, parsing and writing pages are not
    modelled. */
module Scraper {
  import opened Text

  /** `SECTION_KEYWORDS`, in the dictionary's insertion order. */
  const SectionKeywords: seq<(string, seq<string>)> := [
    ("auto", ["auto", "véhicule", "voiture", "assurance auto", "assistance auto"]),
    ("santé", ["santé", "médicale", "mutuelle", "assurance santé", "ousrati", "soins", "hospitalisation"]),
    ("voyage", ["voyage", "étranger", "déplacement", "assistance voyage", "touristique"]),
    ("habitation", ["habitation", "logement", "incendie", "domicile", "assurance habitation"]),
    ("événements", ["événement", "actualité", "salon", "news", "comar d’or", "marathon", "édition", "cérémonie",
                    "remise des prix", "concours"]),
    ("agences", ["agence", "contact", "nos agences", "localisation", "adresse"]),
    ("pro", ["entreprise", "professionnelle", "pro", "corporate", "industrielle", "multirisque professionnelle",
             "rc entreprise", "tiers professionnel"])
  ]

  /** `OTHER_FOLDER`: where a page that matches no keyword goes. */
  const OtherFolder := "autres"

  /** `OUTPUT_DIR` */
  const OutputDir := "scraped_comar"

  /** `normalize`: lower-cased and stripped of accents. */
  function Normalize(text: string): string
  {
    Fold(text)
  }

  /** The normalised keyword occurs in the normalised url or title. */
  predicate KeywordHits(kw: string, urlNorm: string, titleNorm: string)
  {
    Contains(urlNorm, Normalize(kw)) || Contains(titleNorm, Normalize(kw))
  }

  /** Some keyword of section `k` occurs in the url or the title. */
  predicate SectionMatches(k: nat, url: string, title: string)
    requires k < |SectionKeywords|
  {
    exists j :: 0 <= j < |SectionKeywords[k].1| && KeywordHits(SectionKeywords[k].1[j], Normalize(url), Normalize(title))
  }

  /** `classify_section`: the first section, in table order, one of whose
      keywords occurs in the url or the title once both sides are normalised;
      `OTHER_FOLDER` when there is none. */
  method ClassifySection(url: string, title: string) returns (section: string)
    ensures section == OtherFolder <==> forall k :: 0 <= k < |SectionKeywords| ==> !SectionMatches(k, url, title)
    ensures section != OtherFolder ==>
              exists k :: 0 <= k < |SectionKeywords| && section == SectionKeywords[k].0 && SectionMatches(k, url, title)
                          && forall m :: 0 <= m < k ==> !SectionMatches(m, url, title)
  {
    FoldersDistinct();
    var urlNorm := Normalize(url);
    var titleNorm := Normalize(title);
    for k := 0 to |SectionKeywords|
      invariant forall m :: 0 <= m < k ==> !SectionMatches(m, url, title)
    {
      var (name, keywords) := SectionKeywords[k];
      for j := 0 to |keywords|
        invariant forall i :: 0 <= i < j ==> !KeywordHits(keywords[i], urlNorm, titleNorm)
      {
        var kwNorm := Normalize(keywords[j]);
        if Contains(urlNorm, kwNorm) || Contains(titleNorm, kwNorm) {
          assert SectionMatches(k, url, title);
          return name;
        }
      }
    }
    return OtherFolder;
  }

  /** The folders a page can go to: the section names and `OTHER_FOLDER`. */
  function Folders(): seq<string>
  {
    seq(|SectionKeywords|, k requires 0 <= k < |SectionKeywords| => SectionKeywords[k].0) + [OtherFolder]
  }

  /** The folder names are pairwise distinct, so `OTHER_FOLDER` is never a
      section name and a returned name identifies its section. */
  lemma FoldersDistinct()
    ensures forall i, j :: 0 <= i < j < |Folders()| ==> Folders()[i] != Folders()[j]
    ensures forall k :: 0 <= k < |SectionKeywords| ==> SectionKeywords[k].0 != OtherFolder
  {
    var f := Folders();
    assert f == ["auto", "santé", "voyage", "habitation", "événements", "agences", "pro", "autres"];
  }

  // --------------------------------------------------------------- clean_text

  /** `clean_text`: `' '.join(text.strip().split())` */
  function CleanText(text: string): string
  {
    Join(" ", Words(Trim(text)))
  }

  /** Cleaned text has no whitespace at either end and no run of whitespace
      inside: each whitespace character is a single space between two words. */
  lemma CleanTextSingleSpaced(text: string)
    ensures SingleSpaced(CleanText(text))
  {
    JoinWordsSingleSpaced(Words(Trim(text)));
  }

  /** Cleaning keeps the words of the text, in order. */
  lemma CleanTextKeepsWords(text: string)
    ensures Words(CleanText(text)) == Words(Trim(text))
  {
    WordsOfJoin(Words(Trim(text)));
  }

  /** Cleaning cleaned text changes nothing. */
  lemma CleanTextIdempotent(text: string)
    ensures CleanText(CleanText(text)) == CleanText(text)
  {
    var r := CleanText(text);
    CleanTextSingleSpaced(text);
    TrimOfTrimmed(r);
    CleanTextKeepsWords(text);
  }

  // ---------------------------------------------------------------- file name

  /** `title[:50].replace('/', '-')`: the stem of the saved file's name. */
  function FileStem(title: string): (stem: string)
    ensures |stem| <= 50
    ensures forall i :: 0 <= i < |stem| ==> stem[i] != '/'
  {
    var n := if |title| < 50 then |title| else 50;
    seq(n, i requires 0 <= i < n => if title[i] == '/' then '-' else title[i])
  }

  /** The stem keeps the first characters of the title, in order, with each
      '/' turned into '-'; a short title without '/' is kept whole. */
  lemma FileStemOfTitle(title: string)
    ensures |FileStem(title)| == if |title| < 50 then |title| else 50
    ensures forall i :: 0 <= i < |FileStem(title)| ==>
              FileStem(title)[i] == if title[i] == '/' then '-' else title[i]
    ensures |title| <= 50 && (forall i :: 0 <= i < |title| ==> title[i] != '/') ==> FileStem(title) == title
  {
  }

  /** Every name `classify_section` can return is a folder, and every folder
      name is non-empty and holds no '/', so joining it into a path with
      `os.path.join` is plain concatenation with '/'. */
  lemma FoldersArePlainNames()
    ensures OtherFolder in Folders()
    ensures forall k :: 0 <= k < |SectionKeywords| ==> SectionKeywords[k].0 in Folders()
    ensures forall i :: 0 <= i < |Folders()| ==> Folders()[i] != [] && '/' !in Folders()[i]
  {
    var f := Folders();
    assert f == ["auto", "santé", "voyage", "habitation", "événements", "agences", "pro", "autres"];
    assert forall k :: 0 <= k < |SectionKeywords| ==> SectionKeywords[k].0 == f[k];
  }

  /** `os.path.join(OUTPUT_DIR, section, f"{stem}.txt")` on a POSIX system,
      for a section `classify_section` returned (see `FoldersArePlainNames`). */
  function SavedPath(section: string, title: string): string
    requires section in Folders()
  {
    OutputDir + "/" + section + "/" + FileStem(title) + ".txt"
  }

  /** Whatever the title, the file lands directly in its section's folder:
      no '/' follows the folder part of the path. */
  lemma SavedPathInSectionFolder(section: string, title: string)
    requires section in Folders()
    ensures var path := SavedPath(section, title);
      && path[..|OutputDir| + 1 + |section| + 1] == OutputDir + "/" + section + "/"
      && forall i :: |OutputDir| + 1 + |section| + 1 <= i < |path| ==> path[i] != '/'
  {
    var path := SavedPath(section, title);
    var folder := OutputDir + "/" + section + "/";
    var stem := FileStem(title);
    assert path == folder + (stem + ".txt");
    forall i | |folder| <= i < |path|
      ensures path[i] != '/'
    {
      if i < |folder| + |stem| {
        assert path[i] == stem[i - |folder|];
      } else {
        assert path[i] == ".txt"[i - |folder| - |stem|];
      }
    }
  }
}
