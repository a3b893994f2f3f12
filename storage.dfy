/**
 * save_image: naming the output file, the write, the base64 copy returned to
 * the caller and the best-effort browser open (src/server.py lines 88-126).
 */
module Storage {
  import opened Wrappers
  import opened Host

  /** The dict save_image returns. */
  datatype ImageInfo = ImageInfo(imagePath: string, imageBase64: string, filename: string)

  /** What became of `webbrowser.open`: a failure is only logged. */
  datatype BrowserAttempt = NotRequested | Opened(url: string) | OpenFailed(url: string)

  /** The effect of one save: the descriptor, the bytes written to its path, the browser attempt. */
  datatype Saved = Saved(info: ImageInfo, written: Bytes, browser: BrowserAttempt)

  predicate StartsWith(s: string, prefix: string)
  {
    |prefix| <= |s| && s[..|prefix|] == prefix
  }

  predicate EndsWith(s: string, suffix: string)
  {
    |suffix| <= |s| && s[|s| - |suffix|..] == suffix
  }

  /** `f"{prefix}_{timestamp}.png"` */
  function FileName(prefix: string, timestamp: string): string
  {
    prefix + "_" + timestamp + ".png"
  }

  /** `os.path.join(dir, name)` on POSIX. */
  function Join(dir: string, name: string): (r: string)
    ensures EndsWith(r, name)
    ensures !StartsWith(name, "/") ==> StartsWith(r, dir)
    ensures StartsWith(name, "/") ==> r == name
    ensures !StartsWith(name, "/") && (dir == [] || EndsWith(dir, "/")) ==> |r| == |dir| + |name|
    ensures !StartsWith(name, "/") && dir != [] && !EndsWith(dir, "/") ==> |r| == |dir| + 1 + |name| && r[|dir|] == '/'
  {
    if StartsWith(name, "/") then name
    else if dir == [] || EndsWith(dir, "/") then dir + name
    else dir + "/" + name
  }

  /**
   * The last component of a path, what follows its last '/'. The server never
   * computes it; it serves to say that the saved path ends in `filename`.
   */
  function BaseName(p: string): (r: string)
    ensures '/' !in r
    ensures EndsWith(p, r)
  {
    if p == [] || p[|p| - 1] == '/' then []
    else
      var init := p[..|p| - 1];
      var r' := BaseName(init);
      assert init[|init| - |r'|..] == r';
      assert p[|p| - |r'| - 1..] == init[|init| - |r'|..] + [p[|p| - 1]];
      r' + [p[|p| - 1]]
  }

  lemma {:induction false} BaseNameAfterSeparator(head: string, name: string)
    requires head == [] || head[|head| - 1] == '/'
    requires '/' !in name
    ensures BaseName(head + name) == name
  {
    if name == [] {
      assert head + name == head;
    } else {
      var init, last := name[..|name| - 1], name[|name| - 1];
      assert '/' !in init by {
        forall i | 0 <= i < |init| ensures init[i] != '/' {
          assert init[i] == name[i];
        }
      }
      var whole := head + name;
      assert whole[|whole| - 1] == last && last != '/';
      assert whole[..|whole| - 1] == head + init;
      BaseNameAfterSeparator(head, init);
      assert BaseName(whole) == BaseName(head + init) + [last];
      assert init + [last] == name;
    }
  }

  /** The last component of `os.path.join(dir, name)` is `name` itself. */
  lemma BaseNameOfJoin(dir: string, name: string)
    requires '/' !in name
    ensures BaseName(Join(dir, name)) == name
  {
    assert !StartsWith(name, "/") by {
      if |name| > 0 { assert name[0] in name; }
    }
    if dir == [] || EndsWith(dir, "/") {
      assert dir != [] ==> dir[|dir| - 1] == dir[|dir| - 1..][0];
      BaseNameAfterSeparator(dir, name);
    } else {
      BaseNameAfterSeparator(dir + "/", name);
      assert dir + "/" + name == Join(dir, name);
    }
  }

  /** save_image(image_bytes, prefix, open_browser), at the instant `env.timestamp`. */
  function SaveImage(env: Env, bytes: Bytes, prefix: string, openBrowser: bool): (r: Saved)
    ensures r.written == bytes
    ensures r.info.filename == FileName(prefix, env.timestamp)
    ensures r.info.imagePath == Join(env.imageDir, r.info.filename)
    ensures r.info.imageBase64 == env.codec.encode(r.written)
    ensures ValidCodec(env.codec) ==> env.codec.decode(r.info.imageBase64) == Some(r.written)
    ensures !openBrowser <==> r.browser.NotRequested?
    ensures openBrowser ==> r.browser.url == "file://" + r.info.imagePath
                            && (r.browser.OpenFailed? <==> env.browserFails(r.browser.url))
  {
    var filename := FileName(prefix, env.timestamp);
    var path := Join(env.imageDir, filename);
    var url := "file://" + path;
    Saved(ImageInfo(path, env.codec.encode(bytes), filename), bytes,
          if !openBrowser then NotRequested
          else if env.browserFails(url) then OpenFailed(url)
          else Opened(url))
  }

  /**
   * The descriptor is consistent: the file is `prefix_timestamp.png` directly
   * under IMAGE_DIR, `image_path` ends in `filename`, the bytes written are the
   * bytes given, and `image_base64` decodes back to them.
   */
  lemma SaveImageDescriptor(env: Env, bytes: Bytes, prefix: string, openBrowser: bool)
    requires '/' !in prefix && '/' !in env.timestamp
    ensures var s := SaveImage(env, bytes, prefix, openBrowser);
      && s.info.filename == prefix + "_" + env.timestamp + ".png"
      && s.info.imagePath == Join(env.imageDir, s.info.filename)
      && BaseName(s.info.imagePath) == s.info.filename
      && s.written == bytes
      && (ValidCodec(env.codec) ==> env.codec.decode(s.info.imageBase64) == Some(s.written))
  {
    var name := FileName(prefix, env.timestamp);
    assert '/' !in name by {
      assert name == prefix + ("_" + env.timestamp + ".png");
    }
    BaseNameOfJoin(env.imageDir, name);
  }

  /** Whether the browser opens or fails, the save has the same descriptor and writes the same file. */
  lemma BrowserNeverFailsSave(env: Env, bytes: Bytes, prefix: string, openBrowser: bool, fails: string -> bool)
    ensures SaveImage(env.(browserFails := fails), bytes, prefix, openBrowser).info == SaveImage(env, bytes, prefix, openBrowser).info
    ensures SaveImage(env.(browserFails := fails), bytes, prefix, openBrowser).written == bytes
    ensures SaveImage(env, bytes, prefix, openBrowser).browser.NotRequested? <==> !openBrowser
  {
  }

  /**
   * Names carry no more than the second: two saves with the same prefix in the
   * same second use the same path, and the second overwrites the first.
   */
  lemma SameSecondSamePath(env: Env, b1: Bytes, b2: Bytes, prefix: string, o1: bool, o2: bool)
    ensures SaveImage(env, b1, prefix, o1).info.imagePath == SaveImage(env, b2, prefix, o2).info.imagePath
  {
  }

  /** Different prefixes never share a file name within one second. */
  lemma {:induction false} DistinctPrefixesDistinctNames(p1: string, p2: string, timestamp: string)
    requires p1 != p2
    ensures FileName(p1, timestamp) != FileName(p2, timestamp)
  {
    var tail := "_" + timestamp + ".png";
    assert FileName(p1, timestamp) == p1 + tail;
    assert FileName(p2, timestamp) == p2 + tail;
    if |p1| == |p2| {
      assert (p1 + tail)[..|p1|] == p1;
      assert (p2 + tail)[..|p2|] == p2;
    }
  }
}
