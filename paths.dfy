/** Host paths below the kubelet directory. */
module Paths {
  import opened Api

  const Separator := "/"

  /** Joins path elements with the separator, skipping empty elements, as filepath.Join
      does before it cleans the result (cleaning is not modelled). */
  function Join(elems: seq<string>): (path: string)
    ensures path == "" <==> forall i | 0 <= i < |elems| :: elems[i] == ""
    ensures |elems| > 0 && elems[0] != "" ==> elems[0] <= path
  {
    if |elems| == 0 then ""
    else
      var rest := Join(elems[1..]);
      if elems[0] == "" then rest
      else if rest == "" then elems[0]
      else elems[0] + Separator + rest
  }

  /** Appending a non-empty element appends it after one separator. */
  lemma {:induction false} JoinSnoc(elems: seq<string>, last: string)
    requires last != ""
    ensures Join(elems + [last]) == if Join(elems) == "" then last else Join(elems) + Separator + last
  {
    if |elems| == 0 {
      assert elems + [last] == [last];
      assert [last][1..] == [];
    } else {
      assert (elems + [last])[0] == elems[0];
      assert (elems + [last])[1..] == elems[1..] + [last];
      JoinSnoc(elems[1..], last);
      if elems[0] != "" && Join(elems[1..]) != "" {
        assert elems[0] + Separator + (Join(elems[1..]) + Separator + last)
            == (elems[0] + Separator + Join(elems[1..])) + Separator + last;
      }
    }
  }

  /** The kubelet directory of the spec, followed by the given sub-directories. */
  function KubeletPath(spec: DriverSpec, subdirs: seq<string>): (path: string)
    ensures spec.kubeletPath != "" ==> spec.kubeletPath <= path
    ensures path == "" <==> spec.kubeletPath == "" && forall i | 0 <= i < |subdirs| :: subdirs[i] == ""
  {
    var elems := [spec.kubeletPath] + subdirs;
    assert forall i | 0 <= i < |subdirs| :: elems[i + 1] == subdirs[i];
    Join(elems)
  }

  /** A path one level deeper is the shallower path, a separator, and the new element. */
  lemma SubdirExtends(spec: DriverSpec, subdirs: seq<string>, last: string)
    requires last != ""
    ensures KubeletPath(spec, subdirs + [last])
         == if KubeletPath(spec, subdirs) == "" then last else KubeletPath(spec, subdirs) + Separator + last
  {
    assert [spec.kubeletPath] + (subdirs + [last]) == ([spec.kubeletPath] + subdirs) + [last];
    JoinSnoc([spec.kubeletPath] + subdirs, last);
  }
}
