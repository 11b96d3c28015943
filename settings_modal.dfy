/** `components/SettingsModal.tsx`: the settings dialog with a "Preferences" and a "Security"
    tab. Its state is created once, when the page first renders it (closed), and survives
    closing: the lazy `useState` initializer that looks at `isOpen` runs only at that first
    render, so later changes of `initialTab` never switch the tab. */
module SettingsModal {
  const TAB_IDS: seq<string> := ["Preferences", "Security"]
  const DEFAULT_TAB: string := "Preferences"

  /** Which tab body is drawn; neither is drawn for an unknown tab id. */
  datatype Content = PreferencesContent | SecurityContent | NoContent

  class Settings {
    var activeTab: string
    var notifications: bool
    var is2FAEnabled: bool
    /** Held in state but never changed. */
    const securityScore: int

    /** The first render: `activeTab` starts at `initialTab`, and the initializer, which
        only acts when the dialog is already open, sets it to the same value. */
    constructor (isOpen: bool, initialTab: string)
      ensures activeTab == initialTab && notifications && !is2FAEnabled && securityScore == 75
    {
      activeTab := initialTab;
      notifications := true;
      is2FAEnabled := false;
      securityScore := 75;
      if isOpen {
        activeTab := initialTab;
      }
    }

    /** One of the two tab buttons. */
    method ClickTab(id: string)
      requires id in TAB_IDS
      modifies this
      ensures activeTab == id && notifications == old(notifications) && is2FAEnabled == old(is2FAEnabled)
    {
      activeTab := id;
    }

    /** The e-mail notifications switch on the Preferences tab. */
    method ToggleNotifications()
      modifies this
      ensures notifications == !old(notifications)
      ensures activeTab == old(activeTab) && is2FAEnabled == old(is2FAEnabled)
    {
      notifications := !notifications;
    }

    /** The two-factor switch on the Security tab. */
    method Toggle2FA()
      modifies this
      ensures is2FAEnabled == !old(is2FAEnabled)
      ensures activeTab == old(activeTab) && notifications == old(notifications)
    {
      is2FAEnabled := !is2FAEnabled;
    }

    /** The tab body drawn while the dialog is open. */
    function Shown(): (c: Content)
      reads this
      ensures c == PreferencesContent <==> activeTab == "Preferences"
      ensures c == SecurityContent <==> activeTab == "Security"
      ensures c == NoContent <==> activeTab !in TAB_IDS
    {
      if activeTab == "Preferences" then PreferencesContent
      else if activeTab == "Security" then SecurityContent
      else NoContent
    }
  }
}
