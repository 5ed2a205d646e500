/** `standard_size_image_url` (bot.rb:57-65): the badge image URL with its
    file name prefixed by `standard_`. The URL arrives already split into
    its components; parsing and printing a URL are not part of this model. */
module ImageUrl {
  import opened Results
  import opened PathSegments

  /** The components of a URL that the rewrite reads or carries over. */
  datatype Url = Url(scheme: string, host: string, path: string, query: Option<string>)

  /** The new path: the last field of `path.split('/')` prefixed by
      `standard_`, the fields joined again with `/`. */
  function StandardSizePath(path: string): (r: Result<string>)
    ensures r.Fail? <==> Split(path) == []
    ensures r.Fail? ==> r.error == NoFileSegment
  {
    var fields := Split(path);
    if fields == [] then Fail(NoFileSegment)
    else
      var n := |fields|;
      Success(Join(fields[..n - 1] + ["standard_" + fields[n - 1]]))
  }

  /** The URL with its path replaced by `StandardSizePath`. */
  function StandardSizeUrl(url: Url): (r: Result<Url>)
    ensures r.Success? ==>
      && r.value.scheme == url.scheme && r.value.host == url.host && r.value.query == url.query
      && StandardSizePath(url.path) == Success(r.value.path)
    ensures r.Fail? <==> StandardSizePath(url.path).Fail?
  {
    match StandardSizePath(url.path)
    case Success(p) => Success(url.(path := p))
    case Fail(e) => Fail(e)
  }

  /** The step-by-step rewrite of bot.rb:58-64: split the path, pop the file
      name, push it back with the prefix, join and store the new path. */
  method StandardSizeImageUrl(url: Url) returns (r: Result<Url>)
    ensures r == StandardSizeUrl(url)
    ensures r.Fail? <==> forall k | 0 <= k < |url.path| :: url.path[k] == '/'
  {
    SplitEmptyIffSlashes(url.path);
    var pathArray := Split(url.path);
    if pathArray == [] {
      // `pop` on an empty array gives nil, and `'standard_' + nil` raises
      return Fail(NoFileSegment);
    }
    var file := pathArray[|pathArray| - 1];
    pathArray := pathArray[..|pathArray| - 1];
    var newFile := "standard_" + file;
    pathArray := pathArray + [newFile];
    var newPath := Join(pathArray);
    r := Success(url.(path := newPath));
  }

  /** The rewrite fails, as Ruby raises, exactly when the path has no
      segment: it is empty or made of slashes only. */
  lemma StandardSizeFailsIffNoSegment(path: string)
    ensures StandardSizePath(path).Fail? <==> forall k | 0 <= k < |path| :: path[k] == '/'
    ensures StandardSizePath(path).Fail? ==> StandardSizePath(path).error == NoFileSegment
  {
    SplitEmptyIffSlashes(path);
  }

  /** Only the last kept segment changes: splitting the new path gives the
      old segments with the last one prefixed by `standard_`. */
  lemma StandardSizeChangesOnlyLastSegment(path: string)
    requires StandardSizePath(path).Success?
    ensures var fields := Split(path); var n := |fields|;
      n > 0 && Split(StandardSizePath(path).value) == fields[..n - 1] + ["standard_" + fields[n - 1]]
  {
    var fields := Split(path);
    var n := |fields|;
    var renamed := fields[..n - 1] + ["standard_" + fields[n - 1]];
    assert NoSlash("standard_" + fields[n - 1]);
    assert forall k | 0 <= k < n - 1 :: renamed[k] == fields[k];
    SplitJoin(renamed);
  }

  /** The directory part of the path is kept character for character: the old
      path is `dir + file` followed by trailing slashes only, and the new path
      is `dir + "standard_" + file`. */
  lemma StandardSizeKeepsDirectory(path: string)
    requires StandardSizePath(path).Success?
    ensures var fields := Split(path); var file := fields[|fields| - 1];
      exists i :: 0 <= i && i + |file| <= |path|
        && path[i..i + |file|] == file
        && (forall k | i + |file| <= k < |path| :: path[k] == '/')
        && StandardSizePath(path).value == path[..i] + "standard_" + file
  {
    var fields := Split(path);
    var n := |fields|;
    var file := fields[n - 1];
    var init := fields[..n - 1];
    var dir := if n == 1 then "" else Join(init) + "/";
    assert fields == init + [file];
    if n > 1 {
      JoinAppend(init, [file]);
      JoinAppend(init, ["standard_" + file]);
    }
    assert Join(fields) == dir + file;
    assert StandardSizePath(path).value == dir + "standard_" + file;
    SplitDropsOnlyTrailingSlashes(path);
    var i := |dir|;
    assert path[..i] == dir;
    assert path[i..i + |file|] == file;
  }

  /** The rewrite is not idempotent: a second application prefixes the file
      name again, giving `standard_standard_` + the original name. */
  lemma StandardSizeNotIdempotent(path: string)
    requires StandardSizePath(path).Success?
    ensures var once := StandardSizePath(path).value;
      var fields := Split(path); var n := |fields|;
      && StandardSizePath(once).Success?
      && Split(StandardSizePath(once).value) == fields[..n - 1] + ["standard_standard_" + fields[n - 1]]
      && StandardSizePath(once) != Success(once)
  {
    var once := StandardSizePath(path).value;
    var fields := Split(path);
    var n := |fields|;
    StandardSizeChangesOnlyLastSegment(path);
    var fields1 := Split(once);
    assert fields1[..n - 1] == fields[..n - 1];
    assert "standard_" + ("standard_" + fields[n - 1]) == "standard_standard_" + fields[n - 1];
    StandardSizeChangesOnlyLastSegment(once);
    var twice := StandardSizePath(once).value;
    var fields2 := Split(twice);
    assert fields2[n - 1] != fields1[n - 1] by {
      assert |fields2[n - 1]| == |fields1[n - 1]| + 9;
    }
  }

  /** The directory survives: `/dir/file` becomes `/dir/standard_file`
      (so `/b/img.png` becomes `/b/standard_img.png`). */
  lemma {:induction false} StandardSizeKeepsDirectoryExample(dir: string, file: string)
    requires NoSlash(dir) && NoSlash(file) && file != ""
    ensures StandardSizePath("/" + dir + "/" + file) == Success("/" + dir + "/standard_" + file)
  {
    var fields := ["", dir, file];
    assert fields[1..] == [dir, file] && fields[2..] == [file];
    assert Join(fields[1..]) == dir + "/" + file;
    assert Join(fields) == "" + "/" + (dir + "/" + file) == "/" + dir + "/" + file;
    SplitJoin(fields);
    var renamed := ["", dir, "standard_" + file];
    assert fields[..2] + ["standard_" + file] == renamed;
    assert renamed[1..] == [dir, "standard_" + file] && renamed[2..] == ["standard_" + file];
    assert Join(renamed[1..]) == dir + "/" + ("standard_" + file);
    assert Join(renamed) == "" + "/" + (dir + "/" + ("standard_" + file)) == "/" + dir + "/standard_" + file;
  }
}
