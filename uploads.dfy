/** The image filter of `uploads_list`: from the names in the upload
    directory keep, in order and unchanged, those whose lower-cased name
    ends with one of ten image extensions. Listing the directory is not
    modelled; the list of names is the input. */
module Uploads {

  /** The extensions passed to `str.endswith`, in the source's order. */
  const ImageExtensions: seq<string> :=
    [".png", ".jpg", ".jpeg", ".gif", ".webp", ".tif", ".tiff", ".bmp", ".heic", ".heif"]

  /** `str.lower()` on one character, for the letters A to Z. */
  function LowerChar(c: char): char {
    if 'A' <= c <= 'Z' then (c as int + 32) as char else c
  }

  /** `str.lower()`, character by character: same length, no upper-case
      letter left, each upper-case letter turned into its own lower-case letter and every
      other character unchanged. */
  function Lower(s: string): (r: string)
    ensures |r| == |s|
    ensures forall i :: 0 <= i < |r| ==> !('A' <= r[i] <= 'Z')
    ensures forall i :: 0 <= i < |s| && 'A' <= s[i] <= 'Z' ==>
      r[i] == "abcdefghijklmnopqrstuvwxyz"[s[i] as int - 'A' as int]
    ensures forall i :: 0 <= i < |s| && !('A' <= s[i] <= 'Z') ==> r[i] == s[i]
  {
    seq(|s|, i requires 0 <= i < |s| => LowerChar(s[i]))
  }

  /** `s.endswith(suffix)`. */
  predicate EndsWith(s: string, suffix: string) {
    |suffix| <= |s| && s[|s| - |suffix|..] == suffix
  }

  /** `s.endswith(suffixes)` for a tuple: tries the suffixes in order, and
      holds exactly when the name ends with one of them. */
  predicate EndsWithAny(s: string, suffixes: seq<string>)
    ensures EndsWithAny(s, suffixes) <==> exists i :: 0 <= i < |suffixes| && EndsWith(s, suffixes[i])
  {
    suffixes != [] && (EndsWith(s, suffixes[0]) || EndsWithAny(s, suffixes[1..]))
  }

  /** The test of the comprehension: the lower-cased name ends with one of
      the ten extensions. */
  predicate IsImageFile(f: string)
    ensures IsImageFile(f) <==> exists i :: 0 <= i < |ImageExtensions| && EndsWith(Lower(f), ImageExtensions[i])
  {
    EndsWithAny(Lower(f), ImageExtensions)
  }

  /** The comprehension `[f for f in files if f.lower().endswith(...)]`. */
  function ImageFiles(files: seq<string>): (r: seq<string>)
    ensures |r| <= |files|
    ensures forall f :: f in r <==> f in files && IsImageFile(f)
  {
    if files == [] then []
    else (if IsImageFile(files[0]) then [files[0]] else []) + ImageFiles(files[1..])
  }

  /** Filtering a concatenation filters each part, keeping their order: the
      result is the order-preserving sublist of the input. */
  lemma {:induction false} ImageFilesAppend(a: seq<string>, b: seq<string>)
    ensures ImageFiles(a + b) == ImageFiles(a) + ImageFiles(b)
  {
    if a != [] {
      assert (a + b)[0] == a[0];
      assert (a + b)[1..] == a[1..] + b;
      ImageFilesAppend(a[1..], b);
    } else {
      assert a + b == b;
    }
  }

  /** A single name is kept exactly when it is an image file name, and it
      is kept unchanged (not lower-cased). */
  lemma ImageFilesSingle(f: string)
    ensures ImageFiles([f]) == if IsImageFile(f) then [f] else []
  {
  }

  /** Filtering twice keeps the same names as filtering once. */
  lemma {:induction false} ImageFilesIdempotent(files: seq<string>)
    ensures ImageFiles(ImageFiles(files)) == ImageFiles(files)
  {
    if files != [] {
      var head := if IsImageFile(files[0]) then [files[0]] else [];
      ImageFilesAppend(head, ImageFiles(files[1..]));
      ImageFilesSingle(files[0]);
      ImageFilesIdempotent(files[1..]);
    }
  }

  /** Lower-casing is idempotent. */
  lemma LowerIdempotent(s: string)
    ensures Lower(Lower(s)) == Lower(s)
  {
  }

  /** The test ignores case: a name and its lower-cased form are both kept
      or both dropped. */
  lemma IsImageFileIgnoresCase(f: string)
    ensures IsImageFile(f) <==> IsImageFile(Lower(f))
  {
    LowerIdempotent(f);
  }

  /** Upper-case extensions are recognised. */
  lemma UpperCaseExtension()
    ensures IsImageFile("A.JPG")
  {
    assert Lower("A.JPG") == "a.jpg";
    assert EndsWith("a.jpg", ".jpg");
    assert ImageExtensions[1..][0] == ".jpg";
  }

  /** A name must end with the dot and the extension: every extension is at
      least four characters long, so a shorter name is never kept. */
  lemma ShortNamesDropped(f: string)
    requires |f| < 4
    ensures !IsImageFile(f)
  {
    forall i | 0 <= i < |ImageExtensions| ensures 4 <= |ImageExtensions[i]| {
    }
  }
}
