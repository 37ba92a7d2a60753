/**
 * The format filter of the core crate: which kind of format to pick, which generic frame
 * formats are allowed and which platform-specific codes are allowed per capture API.
 */
module FormatFilters {
  import opened Numeric
  import opened CoreTypes

  /** How the format picker should choose among the formats a camera offers. */
  datatype RequestedFormatType =
    | AbsoluteHighestResolution
    | AbsoluteHighestFrameRate
    | HighestResolution(resolution: Resolution)
    | HighestFrameRate(fps: u32)
    | Exact(exact: CameraFormat)
    | Closest(closest: CameraFormat)
    | None

  /** The codes listed for `backend` in a sequence of (backend, code) pairs. */
  ghost function CodesFor(psm: seq<(ApiBackend, u128)>, backend: ApiBackend): set<u128>
  {
    set i | 0 <= i < |psm| && psm[i].0 == backend :: psm[i].1
  }

  /** The backends that occur in a sequence of (backend, code) pairs. */
  ghost function BackendsOf(psm: seq<(ApiBackend, u128)>): set<ApiBackend>
  {
    set i | 0 <= i < |psm| :: psm[i].0
  }

  /** A filter; the BTree collections are a set and a map of sets. */
  class FormatFilter {
    var filter_pref: RequestedFormatType
    var fcc_primary: set<FrameFormat>
    var fcc_platform: map<ApiBackend, set<u128>>

    /** `FormatFilter::new`: the preference, with nothing allowed yet. */
    constructor (fmt_type: RequestedFormatType)
      ensures filter_pref == fmt_type && fcc_primary == {} && fcc_platform == map[]
    {
      filter_pref := fmt_type;
      fcc_primary := {};
      fcc_platform := map[];
    }

    /** `FormatFilter::default()`: closest to 640x480 YUYV at 30 fps, allowing YUYV only. */
    constructor Default()
      ensures filter_pref == Closest(CameraFormat(Resolution(640, 480), Yuv422, 30.0))
      ensures fcc_primary == {Yuv422} && fcc_platform == map[]
    {
      filter_pref := Closest(CameraFormat(Resolution(640, 480), Yuv422, 30.0));
      fcc_primary := {Yuv422};
      fcc_platform := map[];
    }

    /** `add_allowed_frame_format`: inserts into the primary set (a second insert changes nothing). */
    method AddAllowedFrameFormat(frame_format: FrameFormat)
      modifies this
      ensures fcc_primary == old(fcc_primary) + {frame_format}
      ensures frame_format in old(fcc_primary) ==> fcc_primary == old(fcc_primary)
      ensures filter_pref == old(filter_pref) && fcc_platform == old(fcc_platform)
    {
      fcc_primary := fcc_primary + {frame_format};
    }

    /** `add_allowed_frame_format_many`: extends the primary set with every listed format. */
    method AddAllowedFrameFormatMany(frame_formats: seq<FrameFormat>)
      modifies this
      ensures fcc_primary == old(fcc_primary) + set f | f in frame_formats
      ensures filter_pref == old(filter_pref) && fcc_platform == old(fcc_platform)
    {
      fcc_primary := fcc_primary + set f | f in frame_formats;
    }

    /**
     * `add_allowed_platform_specific`: adds the code to the backend's set, creating the set
     * when the backend has none; other backends are untouched.
     */
    method AddAllowedPlatformSpecific(platform: ApiBackend, frame_format: u128)
      modifies this
      ensures platform in fcc_platform
      ensures fcc_platform[platform] == (if platform in old(fcc_platform) then old(fcc_platform)[platform] else {}) + {frame_format}
      ensures forall b :: b != platform ==> (b in fcc_platform <==> b in old(fcc_platform))
      ensures forall b :: b != platform && b in fcc_platform ==> fcc_platform[b] == old(fcc_platform)[b]
      ensures filter_pref == old(filter_pref) && fcc_primary == old(fcc_primary)
    {
      if platform in fcc_platform {
        fcc_platform := fcc_platform[platform := fcc_platform[platform] + {frame_format}];
      } else {
        fcc_platform := fcc_platform[platform := {frame_format}];
      }
    }

    /**
     * `add_allowed_platform_specific_many`: adds every (backend, code) pair in turn. Afterwards
     * a backend has an entry iff it had one or occurs in the pairs, and its set is the old one
     * together with every code listed for it.
     */
    method AddAllowedPlatformSpecificMany(platform_specifics: seq<(ApiBackend, u128)>)
      modifies this
      ensures forall b :: b in fcc_platform <==> b in old(fcc_platform) || b in BackendsOf(platform_specifics)
      ensures forall b :: b in fcc_platform ==>
        fcc_platform[b] == (if b in old(fcc_platform) then old(fcc_platform)[b] else {}) + CodesFor(platform_specifics, b)
      ensures filter_pref == old(filter_pref) && fcc_primary == old(fcc_primary)
    {
      for i := 0 to |platform_specifics|
        invariant Extends(old(fcc_platform), fcc_platform, platform_specifics[..i])
        invariant filter_pref == old(filter_pref) && fcc_primary == old(fcc_primary)
      {
        var (platform, frame_format) := platform_specifics[i];
        ghost var before := fcc_platform;
        AddAllowedPlatformSpecific(platform, frame_format);
        ExtendsStep(old(fcc_platform), before, fcc_platform, platform_specifics, i);
      }
      assert platform_specifics[..|platform_specifics|] == platform_specifics;
    }

    /** `with_allowed_frame_format`: the `add_` counterpart, returning the filter itself. */
    method WithAllowedFrameFormat(frame_format: FrameFormat) returns (f: FormatFilter)
      modifies this
      ensures f == this
      ensures fcc_primary == old(fcc_primary) + {frame_format}
      ensures filter_pref == old(filter_pref) && fcc_platform == old(fcc_platform)
    {
      AddAllowedFrameFormat(frame_format);
      f := this;
    }

    /** `with_allowed_frame_format_many`. */
    method WithAllowedFrameFormatMany(frame_formats: seq<FrameFormat>) returns (f: FormatFilter)
      modifies this
      ensures f == this
      ensures fcc_primary == old(fcc_primary) + set x | x in frame_formats
      ensures filter_pref == old(filter_pref) && fcc_platform == old(fcc_platform)
    {
      AddAllowedFrameFormatMany(frame_formats);
      f := this;
    }

    /** `with_allowed_platform_specific`. */
    method WithAllowedPlatformSpecific(platform: ApiBackend, frame_format: u128) returns (f: FormatFilter)
      modifies this
      ensures f == this
      ensures platform in fcc_platform
      ensures fcc_platform[platform] == (if platform in old(fcc_platform) then old(fcc_platform)[platform] else {}) + {frame_format}
      ensures forall b :: b != platform ==> (b in fcc_platform <==> b in old(fcc_platform))
      ensures forall b :: b != platform && b in fcc_platform ==> fcc_platform[b] == old(fcc_platform)[b]
      ensures filter_pref == old(filter_pref) && fcc_primary == old(fcc_primary)
    {
      AddAllowedPlatformSpecific(platform, frame_format);
      f := this;
    }

    /** `with_allowed_platform_specific_many`. */
    method WithAllowedPlatformSpecificMany(platform_specifics: seq<(ApiBackend, u128)>) returns (f: FormatFilter)
      modifies this
      ensures f == this
      ensures forall b :: b in fcc_platform <==> b in old(fcc_platform) || b in BackendsOf(platform_specifics)
      ensures forall b :: b in fcc_platform ==>
        fcc_platform[b] == (if b in old(fcc_platform) then old(fcc_platform)[b] else {}) + CodesFor(platform_specifics, b)
      ensures filter_pref == old(filter_pref) && fcc_primary == old(fcc_primary)
    {
      AddAllowedPlatformSpecificMany(platform_specifics);
      f := this;
    }
  }

  /**
   * `m` is `base` with every pair of `psm` added: its backends are the old ones and those of
   * the pairs, and each backend's set is its old set with the codes listed for it.
   */
  ghost predicate Extends(base: map<ApiBackend, set<u128>>, m: map<ApiBackend, set<u128>>, psm: seq<(ApiBackend, u128)>)
  {
    (forall b :: b in m <==> b in base || b in BackendsOf(psm))
    && (forall b :: b in m ==> m[b] == (if b in base then base[b] else {}) + CodesFor(psm, b))
  }

  /** Adding the next pair to a map that holds a prefix of the pairs gives the longer prefix. */
  lemma ExtendsStep(base: map<ApiBackend, set<u128>>, m: map<ApiBackend, set<u128>>, m': map<ApiBackend, set<u128>>,
                    psm: seq<(ApiBackend, u128)>, i: nat)
    requires i < |psm| && Extends(base, m, psm[..i])
    requires psm[i].0 in m'
    requires m'[psm[i].0] == (if psm[i].0 in m then m[psm[i].0] else {}) + {psm[i].1}
    requires forall b :: b != psm[i].0 ==> (b in m' <==> b in m)
    requires forall b :: b != psm[i].0 && b in m' ==> m'[b] == m[b]
    ensures Extends(base, m', psm[..i + 1])
  {
    PairsStep(psm, i);
    forall b | b in m'
      ensures m'[b] == (if b in base then base[b] else {}) + CodesFor(psm[..i + 1], b)
    {
      ExtendsEntryStep(base, m, m', psm, i, b);
    }
  }

  /** `ExtendsStep` for the set of one backend. */
  lemma ExtendsEntryStep(base: map<ApiBackend, set<u128>>, m: map<ApiBackend, set<u128>>, m': map<ApiBackend, set<u128>>,
                         psm: seq<(ApiBackend, u128)>, i: nat, b: ApiBackend)
    requires i < |psm| && Extends(base, m, psm[..i])
    requires b in m'
    requires psm[i].0 in m'
    requires m'[psm[i].0] == (if psm[i].0 in m then m[psm[i].0] else {}) + {psm[i].1}
    requires forall b :: b != psm[i].0 ==> (b in m' <==> b in m)
    requires forall b :: b != psm[i].0 && b in m' ==> m'[b] == m[b]
    requires CodesFor(psm[..i + 1], b) == CodesFor(psm[..i], b) + (if psm[i].0 == b then {psm[i].1} else {})
    ensures m'[b] == (if b in base then base[b] else {}) + CodesFor(psm[..i + 1], b)
  {
    if b == psm[i].0 {
      if b in m {
        assert m[b] == (if b in base then base[b] else {}) + CodesFor(psm[..i], b);
      } else {
        assert b !in base && CodesFor(psm[..i], b) == {};
      }
    } else {
      assert m[b] == (if b in base then base[b] else {}) + CodesFor(psm[..i], b);
    }
  }

  /** Extending the prefix of pairs by one pair extends the backends and codes by that pair. */
  lemma PairsStep(psm: seq<(ApiBackend, u128)>, i: nat)
    requires i < |psm|
    ensures BackendsOf(psm[..i + 1]) == BackendsOf(psm[..i]) + {psm[i].0}
    ensures forall b :: CodesFor(psm[..i + 1], b) == CodesFor(psm[..i], b) + (if psm[i].0 == b then {psm[i].1} else {})
  {
    var p, q := psm[..i], psm[..i + 1];
    assert q == p + [psm[i]];
    forall b
      ensures CodesFor(q, b) == CodesFor(p, b) + (if psm[i].0 == b then {psm[i].1} else {})
    {
      forall c | c in CodesFor(q, b)
        ensures c in CodesFor(p, b) + (if psm[i].0 == b then {psm[i].1} else {})
      {
        var k :| 0 <= k < |q| && q[k].0 == b && q[k].1 == c;
        if k < i {
          assert p[k] == q[k];
        }
      }
      forall c | c in CodesFor(p, b)
        ensures c in CodesFor(q, b)
      {
        var k :| 0 <= k < |p| && p[k].0 == b && p[k].1 == c;
        assert q[k] == p[k];
      }
      if psm[i].0 == b {
        assert q[i] == psm[i];
      }
    }
    forall b | b in BackendsOf(q)
      ensures b in BackendsOf(p) + {psm[i].0}
    {
      var k :| 0 <= k < |q| && q[k].0 == b;
      if k < i {
        assert p[k] == q[k];
      }
    }
    forall b | b in BackendsOf(p)
      ensures b in BackendsOf(q)
    {
      var k :| 0 <= k < |p| && p[k].0 == b;
      assert q[k] == p[k];
    }
    assert q[i] == psm[i];
  }

  /**
   * `into_psm` for a map from backends to code lists, given in its iteration order (key order
   * for a BTreeMap, unspecified for a HashMap): each backend's codes in list order, paired
   * with the backend.
   */
  function IntoPsm(entries: seq<(ApiBackend, seq<u128>)>): (psm: seq<(ApiBackend, u128)>)
  {
    if entries == [] then []
    else
      var (backend, codes) := entries[0];
      (seq(|codes|, k requires 0 <= k < |codes| => (backend, codes[k]))) + IntoPsm(entries[1..])
  }

  /** The flattening keeps every pair and adds none: one output pair per listed code. */
  lemma {:induction false} IntoPsmContents(entries: seq<(ApiBackend, seq<u128>)>, b: ApiBackend, c: u128)
    ensures (b, c) in IntoPsm(entries) <==> exists j :: 0 <= j < |entries| && entries[j].0 == b && c in entries[j].1
  {
    if entries != [] {
      IntoPsmContents(entries[1..], b, c);
      var (backend, codes) := entries[0];
      var head := seq(|codes|, k requires 0 <= k < |codes| => (backend, codes[k]));
      assert IntoPsm(entries) == head + IntoPsm(entries[1..]);
      if (b, c) in head {
        var k :| 0 <= k < |head| && head[k] == (b, c);
        assert entries[0].0 == b && c in entries[0].1;
      }
      if exists j :: 0 <= j < |entries| && entries[j].0 == b && c in entries[j].1 {
        var j :| 0 <= j < |entries| && entries[j].0 == b && c in entries[j].1;
        if j == 0 {
          var k :| 0 <= k < |codes| && codes[k] == c;
          assert head[k] == (b, c);
        } else {
          assert entries[1..][j - 1] == entries[j];
        }
      }
      if exists j :: 0 <= j < |entries[1..]| && entries[1..][j].0 == b && c in entries[1..][j].1 {
        var j :| 0 <= j < |entries[1..]| && entries[1..][j].0 == b && c in entries[1..][j].1;
        assert entries[j + 1] == entries[1..][j];
      }
    }
  }
}
