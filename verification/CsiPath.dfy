/** CSI target paths: <root>/<pod uid>/volumes/kubernetes.io~csi/<pv>/<tail>. */
module CsiPath {
  import opened Strings

  const CSI_DIRECTORY := "volumes/kubernetes.io~csi"

  function GetPodUid(target: string): string {
    var pair := Split(target, CSI_DIRECTORY);
    if |pair| != 2 then ""
    else
      var podDir := TrimSuffix(pair[0], "/");
      var index := LastIndex(podDir, '/');
      if index <= 0 then "" else podDir[index + 1..]
  }

  function GetPVName(target: string): string {
    var pair := Split(target, CSI_DIRECTORY);
    if |pair| != 2 then ""
    else
      var pvName := TrimPrefix(pair[1], "/");
      var index := Index(pvName, "/");
      if index <= 0 then "" else pvName[..index]
  }

  // ----- the marker overlaps neither itself nor its neighbours

  lemma OneV(k: nat)
    requires 0 < k < |CSI_DIRECTORY|
    ensures CSI_DIRECTORY[k] != CSI_DIRECTORY[0]
  {
  }

  /** Two occurrences of the marker do not overlap: no proper suffix of it is a prefix of it. */
  lemma MarkersApart(s: string, i: nat, j: nat)
    requires OccursAt(s, CSI_DIRECTORY, i) && OccursAt(s, CSI_DIRECTORY, j) && i < j
    ensures i + |CSI_DIRECTORY| <= j
  {
    forall p | i < p < i + |CSI_DIRECTORY| ensures s[p] != CSI_DIRECTORY[0] {
      OneV(p - i);
      assert s[i..i + |CSI_DIRECTORY|][p - i] == s[p];
    }
    assert s[j..j + |CSI_DIRECTORY|][0] == s[j];
  }

  /** Between `a` and `b`, the marker occurs only where it was put or wholly inside one of them. */
  lemma OccurrencesOfMarker(a: string, b: string, i: nat)
    requires OccursAt(a + CSI_DIRECTORY + b, CSI_DIRECTORY, i)
    ensures || i == |a|
            || OccursAt(a, CSI_DIRECTORY, i)
            || (i >= |a| + |CSI_DIRECTORY| && OccursAt(b, CSI_DIRECTORY, i - |a| - |CSI_DIRECTORY|))
  {
    var d := CSI_DIRECTORY;
    var s := a + d + b;
    assert s[|a|..|a| + |d|] == d;
    if i < |a| {
      MarkersApart(s, i, |a|);
      assert s[i..i + |d|] == a[i..i + |d|];
    } else if i > |a| {
      MarkersApart(s, |a|, i);
      assert s == (a + d) + b;
      OccursBehind(a + d, b, d, i - |a| - |d|);
    }
  }

  lemma FirstMarker(a: string, b: string)
    ensures var i := Index(a + CSI_DIRECTORY + b, CSI_DIRECTORY);
      if Contains(a, CSI_DIRECTORY) then 0 <= i <= |a| - |CSI_DIRECTORY| else i == |a|
  {
    var d := CSI_DIRECTORY;
    var s := a + d + b;
    assert OccursAt(s, d, |a|) by {
      assert s[|a|..|a| + |d|] == d;
    }
    OccurrencesOfMarker(a, b, Index(s, d));
    if Contains(a, d) {
      var j := Index(a, d);
      assert s[j..j + |d|] == a[j..j + |d|];
      assert OccursAt(s, d, j);
    }
  }

  lemma SplitAtMarker(a: string, b: string)
    ensures var s := Split(a + CSI_DIRECTORY + b, CSI_DIRECTORY);
      if Contains(a, CSI_DIRECTORY) || Contains(b, CSI_DIRECTORY) then |s| > 2 else s == [a, b]
  {
    var d := CSI_DIRECTORY;
    var s := a + d + b;
    FirstMarker(a, b);
    var i := Index(s, d);
    var rest := s[i + |d|..];
    if Contains(a, d) {
      var a' := a[i + |d|..];
      assert rest == a' + d + b;
      FirstMarker(a', b);
      SplitFree(rest, d);
    } else {
      assert s[..i] == a && rest == b;
      SplitFree(b, d);
    }
  }

  // ----- round trip

  lemma LastSegment(root: string, uid: string)
    requires root != "" && '/' !in uid
    ensures var podDir := TrimSuffix(root + "/" + uid + "/", "/");
      LastIndex(podDir, '/') == |root| && podDir[|root| + 1..] == uid
  {
    var dir := root + "/" + uid + "/";
    var podDir := root + "/" + uid;
    assert dir[|dir| - 1..] == "/" && dir[..|dir| - 1] == podDir;
    forall i | |root| < i < |podDir| ensures podDir[i] != '/' {
      assert podDir[i] == uid[i - |root| - 1];
    }
    assert podDir[|root|] == '/' && podDir[|root| + 1..] == uid;
  }

  lemma FirstSegment(pv: string, tail: string)
    requires '/' !in pv
    ensures var pvName := TrimPrefix("/" + pv + "/" + tail, "/");
      Index(pvName, "/") == |pv| && pvName[..|pv|] == pv
  {
    var s := "/" + pv + "/" + tail;
    assert s[1..] == pv + ['/'] + tail;
    FirstChar(pv, '/', tail);
  }

  /** uid and pv are read back exactly if the marker occurs nowhere else in the path. */
  lemma CsiPathRoundTrip(root: string, uid: string, pv: string, tail: string)
    requires root != "" && '/' !in uid && '/' !in pv
    ensures var before, after := root + "/" + uid + "/", "/" + pv + "/" + tail;
      var target := before + CSI_DIRECTORY + after;
      && (!Contains(before, CSI_DIRECTORY) && !Contains(after, CSI_DIRECTORY) ==> GetPodUid(target) == uid && GetPVName(target) == pv)
      && (Contains(before, CSI_DIRECTORY) || Contains(after, CSI_DIRECTORY) ==> GetPodUid(target) == "" && GetPVName(target) == "")
  {
    SplitAtMarker(root + "/" + uid + "/", "/" + pv + "/" + tail);
    LastSegment(root, uid);
    FirstSegment(pv, tail);
  }

  /** A root without the marker is not enough: root and uid can make up a marker between them. */
  lemma MarkerAcrossRootAndUid()
    ensures var root, uid := "/volumes", "kubernetes.io~csi";
      !Contains(root, CSI_DIRECTORY) && GetPodUid(root + "/" + uid + "/" + CSI_DIRECTORY + "/pv/mount") == ""
  {
    var before := "/volumes" + "/" + "kubernetes.io~csi" + "/";
    assert before[1..26] == CSI_DIRECTORY;
    assert OccursAt(before, CSI_DIRECTORY, 1);
    CsiPathRoundTrip("/volumes", "kubernetes.io~csi", "pv", "mount");
    assert "/" + "pv" + "/" + "mount" == "/pv/mount";
  }
}
