/**
 * Where a fragment's media comes from (OpenCollab/Sources/Util/AssetInfo.swift).
 */
module AssetInfoModel {
  import opened Wrappers

  /** The part of a downloaded `Fragment` record the core reads: its id. */
  datatype Fragment = Fragment(id: string)

  /** A file URL, identified by its absolute string. */
  datatype Url = Url(absoluteString: string)

  datatype AssetInfo =
    | Empty
    | DownloadedFragment(fragment: Fragment)
    | UserRecorded(url: Url)

  function IsEmpty(a: AssetInfo): (r: bool)
    ensures r <==> a == Empty
  {
    match a
    case Empty => true
    case _ => false
  }

  /** A string that identifies the asset in logs. */
  function LoggingID(a: AssetInfo): (r: string)
    ensures a == Empty ==> r == "empty_fragment"
    ensures a.DownloadedFragment? ==> r == a.fragment.id
    ensures a.UserRecorded? ==> r == a.url.absoluteString
  {
    match a
    case Empty => "empty_fragment"
    case DownloadedFragment(f) => f.id
    case UserRecorded(u) => u.absoluteString
  }

  /** The recording's URL, nil unless user recorded. */
  function UserRecordedURL(a: AssetInfo): (r: Option<Url>)
    ensures r.Some? <==> a.UserRecorded?
    ensures r.Some? ==> r.value == a.url
  {
    match a
    case UserRecorded(u) => Some(u)
    case _ => None
  }

  function IsUserRecorded(a: AssetInfo): (r: bool)
    ensures r <==> a.UserRecorded?
  {
    UserRecordedURL(a) != None
  }

  /** The downloaded fragment, nil unless downloaded. */
  function DownloadedFragmentOf(a: AssetInfo): (r: Option<Fragment>)
    ensures r.Some? <==> a.DownloadedFragment?
    ensures r.Some? ==> r.value == a.fragment
  {
    match a
    case DownloadedFragment(f) => Some(f)
    case _ => None
  }

  /** `AssetInfo.create(fragment:)`. */
  function Create(fragment: Fragment): (r: AssetInfo)
    ensures DownloadedFragmentOf(r) == Some(fragment)
    ensures LoggingID(r) == fragment.id
  {
    DownloadedFragment(fragment)
  }

  /** Exactly one of the three accessors reports each asset. */
  lemma AccessorsPartition(a: AssetInfo)
    ensures IsEmpty(a) || IsUserRecorded(a) || DownloadedFragmentOf(a).Some?
    ensures !(IsEmpty(a) && IsUserRecorded(a))
    ensures !(IsEmpty(a) && DownloadedFragmentOf(a).Some?)
    ensures !(IsUserRecorded(a) && DownloadedFragmentOf(a).Some?)
  {
  }
}
