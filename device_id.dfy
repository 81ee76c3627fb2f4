/**
  getDeviceId: the device id is the URL path after the handler's prefix, and it is
  accepted only when it matches `^[0-9a-fA-F]{2}(:[0-9a-fA-F]{2}){5}$`, a
  colon-separated six-octet hardware address.
 */
module DeviceId {
  import opened Wrappers

  predicate IsHexDigit(c: char)
  {
    '0' <= c <= '9' || 'a' <= c <= 'f' || 'A' <= c <= 'F'
  }

  /** `[0-9a-fA-F]{2}` */
  predicate HexPair(s: string)
  {
    |s| == 2 && IsHexDigit(s[0]) && IsHexDigit(s[1])
  }

  /** `(:[0-9a-fA-F]{2}){n}` matching all of s. */
  predicate ColonPairs(s: string, n: nat)
    decreases n
  {
    if n == 0 then s == []
    else |s| >= 3 && s[0] == ':' && HexPair(s[1..3]) && ColonPairs(s[3..], n - 1)
  }

  /** The anchored pattern, read group by group as the regular expression is written. */
  predicate MatchesMacPattern(s: string)
  {
    |s| >= 2 && HexPair(s[..2]) && ColonPairs(s[2..], 5)
  }

  /** The same language described by position: 17 characters, ':' at 2, 5, 8, 11 and 14, hex digits elsewhere. */
  predicate MacShaped(s: string)
  {
    |s| == 17 && forall k :: 0 <= k < 17 ==> if k % 3 == 2 then s[k] == ':' else IsHexDigit(s[k])
  }

  lemma {:induction false} ColonPairsByPosition(s: string, n: nat)
    ensures ColonPairs(s, n) <==>
              |s| == 3 * n && forall k :: 0 <= k < |s| ==> if k % 3 == 0 then s[k] == ':' else IsHexDigit(s[k])
    decreases n
  {
    if n > 0 && |s| >= 3 {
      var rest := s[3..];
      ColonPairsByPosition(rest, n - 1);
      if |s| == 3 * n && forall k :: 0 <= k < |s| ==> if k % 3 == 0 then s[k] == ':' else IsHexDigit(s[k]) {
        forall k | 0 <= k < |rest| ensures if k % 3 == 0 then rest[k] == ':' else IsHexDigit(rest[k]) {
          assert rest[k] == s[k + 3] && (k + 3) % 3 == k % 3;
        }
        assert s[1..3][0] == s[1] && s[1..3][1] == s[2];
      }
      if ColonPairs(s, n) {
        forall k | 0 <= k < |s| ensures if k % 3 == 0 then s[k] == ':' else IsHexDigit(s[k]) {
          if k >= 3 {
            assert s[k] == rest[k - 3] && (k - 3) % 3 == k % 3;
          } else if k > 0 {
            assert s[k] == s[1..3][k - 1];
          }
        }
      }
    }
  }

  /** The structural and the positional reading of the pattern accept the same strings. */
  lemma MatchesMacPatternIffShaped(s: string)
    ensures MatchesMacPattern(s) <==> MacShaped(s)
  {
    if |s| >= 2 {
      var tail := s[2..];
      ColonPairsByPosition(tail, 5);
      if MacShaped(s) {
        forall k | 0 <= k < |tail| ensures if k % 3 == 0 then tail[k] == ':' else IsHexDigit(tail[k]) {
          assert tail[k] == s[k + 2] && ((k + 2) % 3 == 2 <==> k % 3 == 0);
        }
        assert s[..2][0] == s[0] && s[..2][1] == s[1];
      }
      if MatchesMacPattern(s) {
        forall k | 0 <= k < 17 ensures if k % 3 == 2 then s[k] == ':' else IsHexDigit(s[k]) {
          if k >= 2 {
            assert s[k] == tail[k - 2] && ((k - 2) % 3 == 0 <==> k % 3 == 2);
          } else {
            assert s[k] == s[..2][k];
          }
        }
      }
    }
  }

  /** Go's `(string, error)` result of getDeviceId. */
  datatype Lookup = Lookup(deviceId: string, err: Option<string>)

  /**
    getDeviceId(req, path) with `urlPath` the request's URL path and `prefix` the
    handler's pattern, which the HTTP router guarantees is a prefix of the path.
   */
  function GetDeviceId(urlPath: string, prefix: string): (r: Lookup)
    requires |prefix| <= |urlPath|
    ensures r.err.None? <==> MacShaped(urlPath[|prefix|..])
    ensures r.err.None? ==> r.deviceId == urlPath[|prefix|..]
    ensures r.err.Some? ==> r.deviceId == "" && r.err.value == "invalid device ID: " + urlPath[|prefix|..]
  {
    var deviceId := urlPath[|prefix|..];
    MatchesMacPatternIffShaped(deviceId);
    if !MatchesMacPattern(deviceId) then Lookup("", Some("invalid device ID: " + deviceId))
    else Lookup(deviceId, None)
  }

  /** A five-octet id is rejected, and the handler then works with the empty id. */
  lemma RejectsShortExample()
    ensures GetDeviceId("/_devices/settings/aa:bb:cc:dd:ee", "/_devices/settings/").deviceId == ""
  {
    assert |"/_devices/settings/aa:bb:cc:dd:ee"[|"/_devices/settings/"|..]| == 14;
  }
}
