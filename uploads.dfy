/** The image upload of `internal/handlers/upload.go`: which files are accepted and the URL
  * an accepted file is published under. Writing the file to disk is not modelled. */
module Uploads {
  import opened Outcomes
  import opened Text
  import opened Middleware

  /** The part of the multipart form named `image`: its client-side name and its size. */
  datatype FileHeader = FileHeader(filename: string, size: int)

  /** `filepath.Ext`: the suffix from the last `.` of the final path element, or "" when
    * that element has no `.`. */
  function Ext(path: string): (r: string)
    ensures |r| <= |path| && r == path[|path| - |r|..]
    ensures r != "" ==> r[0] == '.' && '.' !in r[1..] && '/' !in r
  {
    if path == [] then ""
    else
      var last := path[|path| - 1];
      if last == '/' then ""
      else if last == '.' then "."
      else
        var e := Ext(path[..|path| - 1]);
        if e == "" then "" else e + [last]
  }

  /** The final path element has a `.`: some `.` has no `/` after it. */
  predicate DotInLastElement(path: string) {
    exists i :: 0 <= i < |path| && path[i] == '.' && '/' !in path[i + 1..]
  }

  /** A path ending in `/` has an empty final element, hence no `.` in it. */
  lemma SlashEndsElement(path: string)
    requires path != [] && path[|path| - 1] == '/'
    ensures !DotInLastElement(path)
  {
    var n := |path| - 1;
    forall i | 0 <= i < |path| && path[i] == '.'
      ensures '/' in path[i + 1..]
    {
      assert path[i + 1..][n - i - 1] == '/';
    }
  }

  /** Appending a character that is neither `.` nor `/` neither adds nor removes a `.` of
    * the final element. */
  lemma PlainCharKeepsDot(init: string, last: char)
    requires last != '/' && last != '.'
    ensures DotInLastElement(init + [last]) <==> DotInLastElement(init)
  {
    var path := init + [last];
    if DotInLastElement(init) {
      var i :| 0 <= i < |init| && init[i] == '.' && '/' !in init[i + 1..];
      assert path[i + 1..] == init[i + 1..] + [last];
      assert path[i] == '.' && '/' !in path[i + 1..];
    }
    if DotInLastElement(path) {
      var i :| 0 <= i < |path| && path[i] == '.' && '/' !in path[i + 1..];
      assert i < |init|;
      assert path[i + 1..] == init[i + 1..] + [last];
      assert init[i] == '.';
    }
  }

  /** The extension is empty exactly when the final path element has no `.`. */
  lemma {:induction false} ExtEmptyIffNoDot(path: string)
    ensures Ext(path) == "" <==> !DotInLastElement(path)
  {
    if path != [] {
      var n := |path| - 1;
      var last, init := path[n], path[..n];
      assert path == init + [last];
      if last == '/' {
        SlashEndsElement(path);
      } else if last == '.' {
        assert path[n + 1..] == [];
      } else {
        ExtEmptyIffNoDot(init);
        PlainCharKeepsDot(init, last);
      }
    }
  }

  const AllowedExtensions: set<string> := {".jpg", ".jpeg", ".png", ".webp", ".gif"}

  /** 5 MiB. */
  const MaxImageSize: int := 5 * 1024 * 1024

  /** The name the file is stored under: the upload time in nanoseconds, `_`, the client's
    * file name. */
  function StoredName(nanos: int, filename: string): string {
    IntToDecimal(nanos) + "_" + filename
  }

  function ImageUrl(nanos: int, filename: string): string {
    "/uploads/" + StoredName(nanos, filename)
  }

  /** Two uploads get the same stored name only at the same nanosecond with the same name:
    * the printed time holds no `_`, so the first `_` ends it. */
  lemma StoredNameInjective(n: int, f: string, m: int, g: string)
    requires StoredName(n, f) == StoredName(m, g)
    ensures n == m && f == g
  {
    var a, b := IntToDecimal(n), IntToDecimal(m);
    var s := StoredName(n, f);
    assert s == a + "_" + f && s == b + "_" + g;
    assert s[|a|] == '_' && s[|b|] == '_';
    assert forall k :: 0 <= k < |a| ==> s[k] == a[k] && a[k] in a;
    assert forall k :: 0 <= k < |b| ==> s[k] == b[k] && b[k] in b;
    assert |a| == |b|;
    assert a == s[..|a|] == b;
    IntToDecimalInjective(n, m);
    assert f == s[|a| + 1..] == g;
  }

  /** `UploadImage`: a file must be present, have an allowed extension in any ASCII letter
    * case, and be at most 5 MiB. `saved` is whether writing it under `uploads/` succeeded. */
  method UploadImage(ctx: Context, file: Option<FileHeader>, nanos: int, saved: bool) returns (r: Outcome<string>)
    ensures !ctx.ShopId().1 ==> r == Fail(Unauthorized("Unauthorized"))
    ensures ctx.ShopId().1 && file.None? ==> r == Fail(BadRequest("No image file provided"))
    ensures ctx.ShopId().1 && file.Some? && AsciiLower(Ext(file.value.filename)) !in AllowedExtensions ==>
      r == Fail(BadRequest("Invalid file type. Allowed: jpg, jpeg, png, webp, gif"))
    ensures ctx.ShopId().1 && file.Some? && AsciiLower(Ext(file.value.filename)) in AllowedExtensions
            && file.value.size > MaxImageSize ==>
      r == Fail(BadRequest("File too large. Maximum size is 5MB"))
    ensures ctx.ShopId().1 && file.Some? && AsciiLower(Ext(file.value.filename)) in AllowedExtensions
            && file.value.size <= MaxImageSize && !saved ==>
      r == Fail(Internal("Failed to save file"))
    ensures r.Ok? <==> (
      && ctx.ShopId().1 && file.Some? && AsciiLower(Ext(file.value.filename)) in AllowedExtensions
      && file.value.size <= MaxImageSize && saved)
    ensures r.Ok? ==> r.value == ImageUrl(nanos, file.value.filename)
  {
    var (_, ok) := ctx.ShopId();
    if !ok {
      return Fail(Unauthorized("Unauthorized"));
    }
    if file.None? {
      return Fail(BadRequest("No image file provided"));
    }
    var ext := AsciiLower(Ext(file.value.filename));
    if ext !in AllowedExtensions {
      return Fail(BadRequest("Invalid file type. Allowed: jpg, jpeg, png, webp, gif"));
    }
    if file.value.size > MaxImageSize {
      return Fail(BadRequest("File too large. Maximum size is 5MB"));
    }
    if !saved {
      return Fail(Internal("Failed to save file"));
    }
    return Ok(ImageUrl(nanos, file.value.filename));
  }
}
