/** Encryption modes offered by the voice server, their names and the order used to pick one. */
module EncryptionModes {
  import opened Prelude

  datatype EncryptionMode = Normal | Suffix | Lite {

    function Name(): string {
      match this
      case Normal => "xsalsa20_poly1305"
      case Suffix => "xsalsa20_poly1305_suffix"
      case Lite => "xsalsa20_poly1305_lite"
    }

    /** Nonce bytes appended to a packet. */
    function SuffixLen(): nat {
      match this
      case Normal => 0
      case Suffix => 24
      case Lite => 4
    }

    function NonceEntropy(): nat {
      match this
      case Normal => 4
      case Suffix => 24
      case Lite => 4
    }
  }

  function FromName(name: string): Option<EncryptionMode> {
    match name
    case "xsalsa20_poly1305" => Some(Normal)
    case "xsalsa20_poly1305_suffix" => Some(Suffix)
    case "xsalsa20_poly1305_lite" => Some(Lite)
    case _ => None
  }

  /** `Iterator::max` over the recognised names: of two equal elements the later one wins. */
  function Best(names: seq<string>): Option<EncryptionMode> {
    if names == [] then None
    else
      var n := |names| - 1;
      match (Best(names[..n]), FromName(names[n]))
      case (best, None) => best
      case (None, mode) => mode
      case (Some(best), Some(mode)) =>
        Some(if best.NonceEntropy() > mode.NonceEntropy() then best else mode)
  }

  lemma NameRoundTrip(name: string, mode: EncryptionMode)
    ensures FromName(name) == Some(mode) <==> name == mode.Name()
  {
    assert "xsalsa20_poly1305_suffix"[18] == 's' && "xsalsa20_poly1305_lite"[18] == 'l';
    assert |"xsalsa20_poly1305"| == 17;
  }

  /** Nothing recognised, no mode; Suffix whenever it is offered; otherwise the last recognised offer. */
  lemma {:induction false} BestMode(names: seq<string>)
    ensures Best(names) == None <==> forall n :: n in names ==> FromName(n) == None
    ensures Best(names) == Some(Suffix) <==> Suffix.Name() in names
    ensures Best(names).Some? && Best(names).value != Suffix ==>
              exists i :: 0 <= i < |names| && FromName(names[i]) == Best(names)
                       && forall j :: i < j < |names| ==> FromName(names[j]) == None
  {
    if names != [] {
      var n := |names| - 1;
      var rest := names[..n];
      BestMode(rest);
      NameRoundTrip(names[n], Suffix);
      assert names == rest + [names[n]];
      if FromName(names[n]) == None {
        if Best(rest).Some? && Best(rest).value != Suffix {
          var i :| 0 <= i < |rest| && FromName(rest[i]) == Best(rest)
                && forall j :: i < j < |rest| ==> FromName(rest[j]) == None;
          assert FromName(names[i]) == Best(names);
          assert forall j :: i < j < |names| ==> j == n || names[j] == rest[j];
        }
      } else if Best(names).value != Suffix {
        assert FromName(names[n]) == Best(names);
      }
    }
  }
}
