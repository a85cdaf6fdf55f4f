/** The offline-mode store (src/store/offlineStore.ts): four persisted flags and a browser
    support flag that is recomputed at start-up. Browser queries (service worker presence,
    display mode, referrer) and the local model's state are parameters. */
module Offline {
  import opened Text
  import LocalModel

  datatype OfflineState = OfflineState(isOfflineModeEnabled: bool, isPWAInstalled: bool, isModelDownloaded: bool,
                                       downloadProgress: int, browserSupported: bool)

  /** The store's starting value; `browserSupported` is whatever the support probe said. */
  function InitialOffline(browserSupported: bool): (s: OfflineState)
    ensures !s.isOfflineModeEnabled && !s.isPWAInstalled && !s.isModelDownloaded && s.downloadProgress == 0
    ensures s.browserSupported == browserSupported
  {
    OfflineState(false, false, false, 0, browserSupported)
  }

  /** `setOfflineMode(enabled)`; the second result says whether the `CACHE_MODEL` message is
      posted to the service worker, which needs offline mode switched on and a worker present. */
  function SetOfflineMode(s: OfflineState, enabled: bool, hasServiceWorker: bool): (r: (OfflineState, bool))
    ensures r.0.isOfflineModeEnabled == enabled
    ensures r.0.(isOfflineModeEnabled := s.isOfflineModeEnabled) == s
    ensures r.1 <==> enabled && hasServiceWorker
  {
    (s.(isOfflineModeEnabled := enabled), enabled && hasServiceWorker)
  }

  /** `setPWAInstalled(installed)`. */
  function SetPWAInstalled(s: OfflineState, installed: bool): (r: OfflineState)
    ensures r.isPWAInstalled == installed
    ensures r.(isPWAInstalled := s.isPWAInstalled) == s
  {
    s.(isPWAInstalled := installed)
  }

  /** `setModelDownloaded(downloaded)`. */
  function SetModelDownloaded(s: OfflineState, downloaded: bool): (r: OfflineState)
    ensures r.isModelDownloaded == downloaded
    ensures r.(isModelDownloaded := s.isModelDownloaded) == s
  {
    s.(isModelDownloaded := downloaded)
  }

  /** `setDownloadProgress(progress)`. */
  function SetDownloadProgress(s: OfflineState, progress: int): (r: OfflineState)
    ensures r.downloadProgress == progress
    ensures r.(downloadProgress := s.downloadProgress) == s
  {
    s.(downloadProgress := progress)
  }

  /** The three setters touch different fields, so they can be applied in either order. */
  lemma SettersCommute(s: OfflineState, installed: bool, downloaded: bool, progress: int)
    ensures SetPWAInstalled(SetModelDownloaded(s, downloaded), installed) == SetModelDownloaded(SetPWAInstalled(s, installed), downloaded)
    ensures SetDownloadProgress(SetModelDownloaded(s, downloaded), progress) == SetModelDownloaded(SetDownloadProgress(s, progress), downloaded)
  {
  }

  /** Switching offline mode touches no field the other setters write, so it commutes with
      each of them, and whether the model is cached is asked of the worker afresh each time. */
  lemma OfflineModeCommutes(s: OfflineState, enabled: bool, hasServiceWorker: bool, installed: bool,
                            downloaded: bool, progress: int)
    ensures SetOfflineMode(SetPWAInstalled(s, installed), enabled, hasServiceWorker)
            == (SetPWAInstalled(SetOfflineMode(s, enabled, hasServiceWorker).0, installed), SetOfflineMode(s, enabled, hasServiceWorker).1)
    ensures SetOfflineMode(SetModelDownloaded(s, downloaded), enabled, hasServiceWorker)
            == (SetModelDownloaded(SetOfflineMode(s, enabled, hasServiceWorker).0, downloaded), SetOfflineMode(s, enabled, hasServiceWorker).1)
    ensures SetOfflineMode(SetDownloadProgress(s, progress), enabled, hasServiceWorker)
            == (SetDownloadProgress(SetOfflineMode(s, enabled, hasServiceWorker).0, progress), SetOfflineMode(s, enabled, hasServiceWorker).1)
    ensures SetOfflineMode(SetOfflineMode(s, enabled, hasServiceWorker).0, enabled, hasServiceWorker)
            == SetOfflineMode(s, enabled, hasServiceWorker)
  {
  }

  /** `checkPWAStatus()`: installed when shown standalone (by media query or the iOS flag) or
      opened from an Android app. */
  function CheckPWAStatus(s: OfflineState, standaloneDisplay: bool, navigatorStandalone: bool, referrer: string)
    : (r: OfflineState)
    ensures r.isPWAInstalled <==> standaloneDisplay || navigatorStandalone || Contains(referrer, "android-app://")
    ensures r.(isPWAInstalled := s.isPWAInstalled) == s
  {
    s.(isPWAInstalled := standaloneDisplay || navigatorStandalone || Contains(referrer, "android-app://"))
  }

  /** `syncModelState()`: the download flag and progress follow the local model's state. */
  function SyncModelState(s: OfflineState, m: LocalModel.ModelState): (r: OfflineState)
    ensures m == LocalModel.Ready ==> r.isModelDownloaded && r.downloadProgress == 100
    ensures m != LocalModel.Ready ==> !r.isModelDownloaded && r.downloadProgress == 0
    ensures r.isOfflineModeEnabled == s.isOfflineModeEnabled && r.isPWAInstalled == s.isPWAInstalled
    ensures r.browserSupported == s.browserSupported
  {
    s.(isModelDownloaded := m == LocalModel.Ready, downloadProgress := if m == LocalModel.Ready then 100 else 0)
  }

  /** Syncing reaches a state that depends only on the model: syncing twice is syncing once,
      and a sync erases any progress set by hand. */
  lemma SyncModelStateLaws(s: OfflineState, m: LocalModel.ModelState, progress: int)
    ensures SyncModelState(SyncModelState(s, m), m) == SyncModelState(s, m)
    ensures SyncModelState(SetDownloadProgress(s, progress), m) == SyncModelState(s, m)
  {
  }

  /** The part of the state that is persisted. */
  datatype PersistedOffline = PersistedOffline(isOfflineModeEnabled: bool, isPWAInstalled: bool,
                                               isModelDownloaded: bool, downloadProgress: int)

  /** `partialize`: everything but `browserSupported`. */
  function Partialize(s: OfflineState): (p: PersistedOffline)
    ensures p.isOfflineModeEnabled == s.isOfflineModeEnabled && p.isPWAInstalled == s.isPWAInstalled
    ensures p.isModelDownloaded == s.isModelDownloaded && p.downloadProgress == s.downloadProgress
  {
    PersistedOffline(s.isOfflineModeEnabled, s.isPWAInstalled, s.isModelDownloaded, s.downloadProgress)
  }

  /** Two states that differ only in browser support persist identically. */
  lemma PartializeIgnoresSupport(s: OfflineState, supported: bool)
    ensures Partialize(s.(browserSupported := supported)) == Partialize(s)
  {
  }

  /** Start-up from a persisted value: the saved fields restored, then `checkPWAStatus` and
      `syncModelState` run again. */
  function Rehydrate(p: PersistedOffline, browserSupported: bool, standaloneDisplay: bool, navigatorStandalone: bool,
                     referrer: string, m: LocalModel.ModelState): (r: OfflineState)
    ensures r.isOfflineModeEnabled == p.isOfflineModeEnabled && r.browserSupported == browserSupported
  {
    var restored := OfflineState(p.isOfflineModeEnabled, p.isPWAInstalled, p.isModelDownloaded, p.downloadProgress, browserSupported);
    SyncModelState(CheckPWAStatus(restored, standaloneDisplay, navigatorStandalone, referrer), m)
  }

  /** Only the offline-mode switch survives a restart as saved; the other three fields are
      recomputed from the browser and the model. */
  lemma RehydrateRecomputes(s: OfflineState, supported: bool, standaloneDisplay: bool, navigatorStandalone: bool,
                            referrer: string, m: LocalModel.ModelState)
    ensures var r := Rehydrate(Partialize(s), supported, standaloneDisplay, navigatorStandalone, referrer, m);
            r == SyncModelState(CheckPWAStatus(s.(browserSupported := supported), standaloneDisplay, navigatorStandalone, referrer), m)
  {
  }
}
