/** File-extension classification and the size units of upload limits
    (src/lib/filetype.ts). */
module Filetype {
  import opened Common

  const IMAGES := ["jpg", "jpeg", "png", "gif", "bpm", "webp"]
  const VIDEOS := ["mp4", "avi", "wmv", "mov", "mkv"]
  const DOCS := ["pdf", "doc", "docx", "ppt", "pptx", "xls", "xlsx", "txt"]
  const COMPRESSED := ["zip", "rar", "tar", "7z", "gz"]
  const AUDIOS := ["mp3", "wav", "ogg", "flac", "aac"]

  /** The names `filetype` can return. */
  const CATEGORIES := ["image", "video", "document", "compressed", "audio", "other"]

  /** `s.replace(c, '')` with a one-character pattern: only the first occurrence
      is removed. */
  function RemoveFirst(s: string, c: char): (r: string)
    ensures c !in s ==> r == s
    ensures c in s ==> exists i :: 0 <= i < |s| && s[i] == c && c !in s[..i] && r == s[..i] + s[i + 1..]
  {
    match IndexOf(s, c)
    case None => s
    case Some(i) => s[..i] + s[i + 1..]
  }

  /** `filetype(ext)`: the category whose list holds the extension once its first
      `.` is removed, tried in the order images, videos, documents, compressed,
      audio; `other` when none does. */
  function Filetype(ext: string): (r: string)
    ensures r in CATEGORIES
  {
    var e := RemoveFirst(ext, '.');
    if e in IMAGES then "image"
    else if e in VIDEOS then "video"
    else if e in DOCS then "document"
    else if e in COMPRESSED then "compressed"
    else if e in AUDIOS then "audio"
    else "other"
  }

  /** No extension is in two lists. */
  lemma ListsDisjoint(e: string)
    ensures e in IMAGES ==> e !in VIDEOS && e !in DOCS && e !in COMPRESSED && e !in AUDIOS
    ensures e in VIDEOS ==> e !in DOCS && e !in COMPRESSED && e !in AUDIOS
    ensures e in DOCS ==> e !in COMPRESSED && e !in AUDIOS
    ensures e in COMPRESSED ==> e !in AUDIOS
  {
  }

  /** Because the lists are disjoint, the order of the tests does not matter: the
      result names the one list holding the extension. */
  lemma FiletypeIsTheListHoldingIt(ext: string)
    ensures var e := RemoveFirst(ext, '.');
      (Filetype(ext) == "image" <==> e in IMAGES)
      && (Filetype(ext) == "video" <==> e in VIDEOS)
      && (Filetype(ext) == "document" <==> e in DOCS)
      && (Filetype(ext) == "compressed" <==> e in COMPRESSED)
      && (Filetype(ext) == "audio" <==> e in AUDIOS)
      && (Filetype(ext) == "other" <==> e !in IMAGES + VIDEOS + DOCS + COMPRESSED + AUDIOS)
  {
    ListsDisjoint(RemoveFirst(ext, '.'));
  }

  /** A leading dot is removed before the lookup. */
  lemma FiletypeLeadingDot()
    ensures Filetype(".png") == "image" && Filetype("png") == "image"
  {
    assert RemoveFirst(".png", '.') == "png" by { assert IndexOf(".png", '.') == Some(0); }
    assert RemoveFirst("png", '.') == "png" by { assert IndexOf("png", '.') == None; }
  }

  /** Only the first dot is removed, so `..png` is looked up as `.png`. */
  lemma FiletypeOnlyFirstDot()
    ensures Filetype("..png") == "other"
  {
    assert RemoveFirst("..png", '.') == ".png" by { assert IndexOf("..png", '.') == Some(0); }
    assert ".png" !in IMAGES && ".png" !in VIDEOS && ".png" !in DOCS;
    assert ".png" !in COMPRESSED && ".png" !in AUDIOS;
  }

  /** Matching is exact and case-sensitive: `PNG` is not an image. */
  lemma FiletypeCaseSensitive()
    ensures Filetype("PNG") == "other"
  {
    assert RemoveFirst("PNG", '.') == "PNG" by { assert IndexOf("PNG", '.') == None; }
    assert "PNG" !in IMAGES + VIDEOS + DOCS + COMPRESSED + AUDIOS by {
      forall x | x in IMAGES + VIDEOS + DOCS + COMPRESSED + AUDIOS ensures x[0] != 'P' { }
    }
    FiletypeIsTheListHoldingIt("PNG");
  }

  /** The image list spells `bpm`, so `bmp` is not an image. */
  lemma FiletypeBmpIsOther()
    ensures Filetype("bmp") == "other"
  {
    assert RemoveFirst("bmp", '.') == "bmp" by { assert IndexOf("bmp", '.') == None; }
    assert "bmp" !in IMAGES + VIDEOS + DOCS + COMPRESSED + AUDIOS by {
      forall x | x in IMAGES + VIDEOS + DOCS + COMPRESSED + AUDIOS ensures x != "bmp" { }
    }
    FiletypeIsTheListHoldingIt("bmp");
  }

  const KB := 1024
  const MB := KB * KB
  const GB := MB * KB

  lemma SizeConstants()
    ensures KB == 1024 && MB == 1048576 && GB == 1073741824
  {
  }

  /** The text `parseSize` builds: the size divided by `divisor`, written with two
      decimals, then a space and `unit`; or the literal `'0 KB'`. */
  datatype SizeText = Scaled(divisor: nat, unit: string) | ZeroKB

  /** `parseSize(size)` as written: the chain of comparisons picks the unit. */
  function ParseSize(size: int): (r: SizeText)
    ensures size < KB || KB < size < MB ==> r == Scaled(KB, "KB")
    ensures MB <= size < GB ==> r == Scaled(MB, "MB")
    ensures size > GB ==> r == Scaled(GB, "GB")
    ensures r == ZeroKB <==> size == KB || size == GB
  {
    if size < KB then Scaled(KB, "KB")
    else if size > KB && size < MB then Scaled(KB, "KB")
    else if size > KB && size < GB then Scaled(MB, "MB")
    else if size > GB then Scaled(GB, "GB")
    else ZeroKB
  }

  /** Exactly one kilobyte and exactly one gigabyte fall through every comparison
      and are shown as `0 KB`. */
  lemma ParseSizeBoundaries()
    ensures ParseSize(KB) == ZeroKB && ParseSize(GB) == ZeroKB
    ensures ParseSizeIntended(KB) == Scaled(KB, "KB") && ParseSizeIntended(GB) == Scaled(GB, "GB")
  {
  }

  /** The unit choice the comparisons aim at: the largest unit not above the
      size, and KB below one kilobyte. */
  function ParseSizeIntended(size: nat): (r: SizeText)
    ensures r.Scaled? && r.divisor in {KB, MB, GB}
    ensures size >= KB ==> r.divisor <= size < r.divisor * KB || (r.divisor == GB && size >= GB)
    ensures size < KB ==> r == Scaled(KB, "KB")
  {
    if size < MB then Scaled(KB, "KB")
    else if size < GB then Scaled(MB, "MB")
    else Scaled(GB, "GB")
  }

  /** The code as written agrees with the intended choice everywhere except at the
      two boundaries. */
  lemma ParseSizeAgreesOffBoundaries(size: nat)
    requires size != KB && size != GB
    ensures ParseSize(size) == ParseSizeIntended(size)
  {
  }
}
