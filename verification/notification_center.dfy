/**
 * The user-notification-center delegate
 * (Classes/Core/UserNotificationCenterDelegate.swift): presentation options
 * for a foreground notification, the message built from a notification, and
 * the guard in front of action handling.
 */
module NotificationCenter {
  import opened Wrappers
  import opened Payload
  import Messages

  /** The options of MobileMessaging's `UserNotificationType`. */
  datatype NotificationTypeOption = TypeAlert | TypeBadge | TypeSound

  /** `UNNotificationPresentationOptions`, including the options the mapping never produces. */
  datatype PresentationOption = Alert | Badge | Sound | List | Banner

  /** The presentation option that stands for a notification-type option. */
  function PresentationOf(o: NotificationTypeOption): (r: PresentationOption)
    ensures o == TypeAlert <==> r == Alert
    ensures o == TypeBadge <==> r == Badge
    ensures o == TypeSound <==> r == Sound
    ensures r != List && r != Banner
  {
    match o
    case TypeAlert => Alert
    case TypeBadge => Badge
    case TypeSound => Sound
  }

  /** `UNNotificationPresentationOptions.make(with:)`, inserting into `ret` step by step. */
  method MakePresentationOptions(userNotificationType: set<NotificationTypeOption>) returns (ret: set<PresentationOption>)
    ensures Alert in ret <==> TypeAlert in userNotificationType
    ensures Badge in ret <==> TypeBadge in userNotificationType
    ensures Sound in ret <==> TypeSound in userNotificationType
    ensures List !in ret && Banner !in ret
    ensures ret == set o | o in userNotificationType :: PresentationOf(o)
  {
    ret := {};
    if TypeAlert in userNotificationType {
      ret := ret + {Alert};
    }
    if TypeBadge in userNotificationType {
      ret := ret + {Badge};
    }
    if TypeSound in userNotificationType {
      ret := ret + {Sound};
    }
  }

  /** `MTMessageDeliveryMethod`. */
  datatype DeliveryMethod = Undefined | Push | Pull | GeneratedLocally

  /** `MMSeenStatus`. */
  datatype SeenStatus = NotSeen | SeenNotSent | SeenSent

  /** A mobile-terminated message: the parsed push payload and its delivery bookkeeping. */
  datatype MTMessage = MTMessage(
    message: Messages.MMMessage,
    deliveryMethod: DeliveryMethod,
    seenDate: Option<int>,
    deliveryReportDate: Option<int>,
    seenStatus: SeenStatus,
    isDeliveryReportSent: bool)

  /**
   * `MTMessage(payload:deliveryMethod:seenDate:deliveryReportDate:seenStatus:isDeliveryReportSent:)`,
   * failing exactly when the payload is not a message.
   */
  function NewMTMessage(payload: Dict, deliveryMethod: DeliveryMethod, seenDate: Option<int>,
                        deliveryReportDate: Option<int>, seenStatus: SeenStatus,
                        isDeliveryReportSent: bool): (r: Option<MTMessage>)
    ensures r.Some? <==> Messages.ParseMessage(payload).Some?
    ensures r.Some? ==> r.value.message == Messages.ParseMessage(payload).value
    ensures r.Some? ==> r.value.deliveryMethod == deliveryMethod && r.value.seenStatus == seenStatus
    ensures r.Some? ==> r.value.seenDate == seenDate && r.value.deliveryReportDate == deliveryReportDate
    ensures r.Some? ==> r.value.isDeliveryReportSent == isDeliveryReportSent
  {
    match Messages.ParseMessage(payload)
    case Some(m) => Some(MTMessage(m, deliveryMethod, seenDate, deliveryReportDate, seenStatus, isDeliveryReportSent))
    case None => None
  }

  /** `MTMessage.make(with:)`: a message straight from a notification is undelivered and unseen. */
  function MakeMTMessage(userInfo: Dict): (r: Option<MTMessage>)
    ensures r.Some? <==> Messages.ParseMessage(userInfo).Some?
    ensures r.Some? ==> r.value.message.originalPayload == userInfo
    ensures r.Some? ==> r.value.deliveryMethod == Undefined
    ensures r.Some? ==> r.value.seenDate.None? && r.value.deliveryReportDate.None?
    ensures r.Some? ==> r.value.seenStatus == NotSeen
    ensures r.Some? ==> !r.value.isDeliveryReportSent
  {
    NewMTMessage(userInfo, Undefined, None, None, NotSeen, false)
  }

  /** What `didReceive` does with a notification response. */
  datatype ResponseHandling =
    | CompletedUnhandled
    | HandleAction(identifier: string, categoryId: Option<string>, message: Option<MTMessage>,
                   notificationUserInfo: Dict, userText: Option<string>)

  /**
   * `didReceive(notificationUserInfo:actionId:categoryId:userText:withCompletionHandler:)`.
   * `serviceInitialized` says whether `NotificationsInteractionService.sharedInstance`
   * exists. Without an action identifier or that service the completion is
   * called at once; otherwise the action and the completion go to the service.
   */
  function DidReceive(notificationUserInfo: Dict, actionId: Option<string>, categoryId: Option<string>,
                      userText: Option<string>, serviceInitialized: bool): (r: ResponseHandling)
    ensures r.CompletedUnhandled? <==> actionId.None? || !serviceInitialized
    ensures r.HandleAction? ==> r.identifier == actionId.value && r.categoryId == categoryId && r.userText == userText
    ensures r.HandleAction? ==> r.message == MakeMTMessage(notificationUserInfo)
    ensures r.HandleAction? ==> r.notificationUserInfo == notificationUserInfo
  {
    if actionId.None? || !serviceInitialized then CompletedUnhandled
    else
      var message := NewMTMessage(notificationUserInfo, Undefined, None, None, NotSeen, false);
      HandleAction(actionId.value, categoryId, message, notificationUserInfo, userText)
  }
}
