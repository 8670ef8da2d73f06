/** DNS-protection profile creation (plugins/modules/create_dns_profile.py): the friendly/API
    translation tables, the forward mapper and its reverse, the split of the API parameters into a
    POSTed first phase and a PUT quota phase, and the batch loop over the profiles. */
module CreateDnsProfile {
  import opened Py
  import opened Http
  import opened Tables

  // ---------------------------------------------------------------------------------------------
  // Tables
  // ---------------------------------------------------------------------------------------------

  const EnableCodes: Table := [("enable", "1"), ("disable", "2")]
  const ActionCodes: Table := [("report_only", "0"), ("block_&_report", "1")]
  const StrictnessCodes: Table := [("low", "0"), ("medium", "1"), ("high", "2")]
  const EnableWords: Table := [("1", "enable"), ("2", "disable")]
  const ActionWords: Table := [("0", "report_only"), ("1", "block_&_report")]
  const StrictnessWords: Table := [("0", "low"), ("1", "medium"), ("2", "high")]

  /** `REVERSE_FIELD_MAP.get(api)`: the friendly name of an API field. */
  function UserField(api: string): Option<string>
  {
    match |api|
    case 22 => if api == "rsDnsProtProfileAction" then Some("action") else None
    case 25 => if api == "rsDnsProtProfileDnsAQuota" then Some("a_quota") else None
    case 26 =>
      (match api
      case "rsDnsProtProfileDnsAStatus" => Some("a_status")
      case "rsDnsProtProfileDnsMxQuota" => Some("mx_quota")
      case _ => None)
    case 27 =>
      (match api
      case "rsDnsProtProfileDnsMxStatus" => Some("mx_status")
      case "rsDnsProtProfileExpectedQps" => Some("expected_qps")
      case "rsDnsProtProfileMaxAllowQps" => Some("max_allow_qps")
      case "rsDnsProtProfileDnsPtrQuota" => Some("ptr_quota")
      case "rsDnsProtProfileDnsSoaQuota" => Some("soa_quota")
      case "rsDnsProtProfileDnsSrvQuota" => Some("srv_quota")
      case _ => None)
    case 28 =>
      (match api
      case "rsDnsProtProfileDnsPtrStatus" => Some("ptr_status")
      case "rsDnsProtProfileDnsSoaStatus" => Some("soa_status")
      case "rsDnsProtProfileDnsSrvStatus" => Some("srv_status")
      case "rsDnsProtProfileDnsAaaaQuota" => Some("aaaa_quota")
      case "rsDnsProtProfileDnsTextQuota" => Some("text_quota")
      case _ => None)
    case 29 =>
      (match api
      case "rsDnsProtProfileDnsAaaaStatus" => Some("aaaa_status")
      case "rsDnsProtProfileDnsTextStatus" => Some("text_status")
      case "rsDnsProtProfileDnsNaptrQuota" => Some("naptr_quota")
      case "rsDnsProtProfileDnsOtherQuota" => Some("other_quota")
      case _ => None)
    case 30 =>
      (match api
      case "rsDnsProtProfileDnsNaptrStatus" => Some("naptr_status")
      case "rsDnsProtProfileDnsOtherStatus" => Some("other_status")
      case _ => None)
    case 32 => if api == "rsDnsProtProfileSigRateLimTarget" then Some("sig_rate_lim_target") else None
    case 34 => if api == "rsDnsProtProfilePacketReportStatus" then Some("packet_report") else None
    case 35 =>
      (match api
      case "rsDnsProtProfileFootprintStrictness" => Some("footprint_strictness")
      case "rsDnsProtProfileManualTriggerStatus" => Some("manual_trigger")
      case _ => None)
    case 38 =>
      (match api
      case "rsDnsProtProfileManualTriggerActThresh" => Some("manual_trigger_act_thresh")
      case "rsDnsProtProfileManualTriggerActPeriod" => Some("manual_trigger_act_period")
      case _ => None)
    case 39 =>
      (match api
      case "rsDnsProtProfileManualTriggerTermThresh" => Some("manual_trigger_term_thresh")
      case "rsDnsProtProfileManualTriggerTermPeriod" => Some("manual_trigger_term_period")
      case _ => None)
    case 41 =>
      (match api
      case "rsDnsProtProfileManualTriggerMaxQpsTarget" => Some("manual_trigger_max_qps_target")
      case "rsDnsProtProfileSubdomainsWLLearningState" => Some("subdomains_allow_list")
      case _ => None)
    case 43 => if api == "rsDnsProtProfileManualTriggerEscalatePeriod" then Some("manual_trigger_escalate_period") else None
    case 44 => if api == "rsDnsProtProfileLearningSuppressionThreshold" then Some("learning_suppression_threshold") else None
    case 46 => if api == "rsDnsProtProfileQueryNameMonitoringSensitivity" then Some("query_name_sensitivity") else None
    case _ => None
  }

  /** `FIELD_MAP.get(user)`, where `FIELD_MAP` inverts `REVERSE_FIELD_MAP`. */
  function ApiField(user: string): Option<string>
  {
    match |user|
    case 6 => if user == "action" then Some("rsDnsProtProfileAction") else None
    case 7 => if user == "a_quota" then Some("rsDnsProtProfileDnsAQuota") else None
    case 8 =>
      (match user
      case "a_status" => Some("rsDnsProtProfileDnsAStatus")
      case "mx_quota" => Some("rsDnsProtProfileDnsMxQuota")
      case _ => None)
    case 9 =>
      (match user
      case "mx_status" => Some("rsDnsProtProfileDnsMxStatus")
      case "ptr_quota" => Some("rsDnsProtProfileDnsPtrQuota")
      case "soa_quota" => Some("rsDnsProtProfileDnsSoaQuota")
      case "srv_quota" => Some("rsDnsProtProfileDnsSrvQuota")
      case _ => None)
    case 10 =>
      (match user
      case "ptr_status" => Some("rsDnsProtProfileDnsPtrStatus")
      case "soa_status" => Some("rsDnsProtProfileDnsSoaStatus")
      case "srv_status" => Some("rsDnsProtProfileDnsSrvStatus")
      case "aaaa_quota" => Some("rsDnsProtProfileDnsAaaaQuota")
      case "text_quota" => Some("rsDnsProtProfileDnsTextQuota")
      case _ => None)
    case 11 =>
      (match user
      case "aaaa_status" => Some("rsDnsProtProfileDnsAaaaStatus")
      case "text_status" => Some("rsDnsProtProfileDnsTextStatus")
      case "naptr_quota" => Some("rsDnsProtProfileDnsNaptrQuota")
      case "other_quota" => Some("rsDnsProtProfileDnsOtherQuota")
      case _ => None)
    case 12 =>
      (match user
      case "naptr_status" => Some("rsDnsProtProfileDnsNaptrStatus")
      case "other_status" => Some("rsDnsProtProfileDnsOtherStatus")
      case "expected_qps" => Some("rsDnsProtProfileExpectedQps")
      case _ => None)
    case 13 =>
      (match user
      case "max_allow_qps" => Some("rsDnsProtProfileMaxAllowQps")
      case "packet_report" => Some("rsDnsProtProfilePacketReportStatus")
      case _ => None)
    case 14 => if user == "manual_trigger" then Some("rsDnsProtProfileManualTriggerStatus") else None
    case 19 => if user == "sig_rate_lim_target" then Some("rsDnsProtProfileSigRateLimTarget") else None
    case 20 => if user == "footprint_strictness" then Some("rsDnsProtProfileFootprintStrictness") else None
    case 21 => if user == "subdomains_allow_list" then Some("rsDnsProtProfileSubdomainsWLLearningState") else None
    case 22 => if user == "query_name_sensitivity" then Some("rsDnsProtProfileQueryNameMonitoringSensitivity") else None
    case 25 =>
      (match user
      case "manual_trigger_act_thresh" => Some("rsDnsProtProfileManualTriggerActThresh")
      case "manual_trigger_act_period" => Some("rsDnsProtProfileManualTriggerActPeriod")
      case _ => None)
    case 26 =>
      (match user
      case "manual_trigger_term_thresh" => Some("rsDnsProtProfileManualTriggerTermThresh")
      case "manual_trigger_term_period" => Some("rsDnsProtProfileManualTriggerTermPeriod")
      case _ => None)
    case 29 => if user == "manual_trigger_max_qps_target" then Some("rsDnsProtProfileManualTriggerMaxQpsTarget") else None
    case 30 =>
      (match user
      case "manual_trigger_escalate_period" => Some("rsDnsProtProfileManualTriggerEscalatePeriod")
      case "learning_suppression_threshold" => Some("rsDnsProtProfileLearningSuppressionThreshold")
      case _ => None)
    case _ => None
  }

  /** `ENUM_MAPS.get(user)`: the code table of an enumerated friendly field. */
  function EnumCodes(user: string): Option<Table>
  {
    match |user|
    case 6 => if user == "action" then Some(ActionCodes) else None
    case 8 => if user == "a_status" then Some(EnableCodes) else None
    case 9 => if user == "mx_status" then Some(EnableCodes) else None
    case 10 =>
      (match user
      case "ptr_status" => Some(EnableCodes)
      case "soa_status" => Some(EnableCodes)
      case "srv_status" => Some(EnableCodes)
      case _ => None)
    case 11 =>
      (match user
      case "aaaa_status" => Some(EnableCodes)
      case "text_status" => Some(EnableCodes)
      case _ => None)
    case 12 =>
      (match user
      case "naptr_status" => Some(EnableCodes)
      case "other_status" => Some(EnableCodes)
      case _ => None)
    case 13 => if user == "packet_report" then Some(EnableCodes) else None
    case 14 => if user == "manual_trigger" then Some(EnableCodes) else None
    case 20 => if user == "footprint_strictness" then Some(StrictnessCodes) else None
    case 21 => if user == "subdomains_allow_list" then Some(EnableCodes) else None
    case _ => None
  }

  /** `REVERSE_ENUM_MAPS.get(api)`: the word table of an enumerated API field. */
  function EnumWords(api: string): Option<Table>
  {
    match |api|
    case 22 => if api == "rsDnsProtProfileAction" then Some(ActionWords) else None
    case 26 => if api == "rsDnsProtProfileDnsAStatus" then Some(EnableWords) else None
    case 27 => if api == "rsDnsProtProfileDnsMxStatus" then Some(EnableWords) else None
    case 28 =>
      (match api
      case "rsDnsProtProfileDnsPtrStatus" => Some(EnableWords)
      case "rsDnsProtProfileDnsSoaStatus" => Some(EnableWords)
      case "rsDnsProtProfileDnsSrvStatus" => Some(EnableWords)
      case _ => None)
    case 29 =>
      (match api
      case "rsDnsProtProfileDnsAaaaStatus" => Some(EnableWords)
      case "rsDnsProtProfileDnsTextStatus" => Some(EnableWords)
      case _ => None)
    case 30 =>
      (match api
      case "rsDnsProtProfileDnsNaptrStatus" => Some(EnableWords)
      case "rsDnsProtProfileDnsOtherStatus" => Some(EnableWords)
      case _ => None)
    case 34 => if api == "rsDnsProtProfilePacketReportStatus" then Some(EnableWords) else None
    case 35 =>
      (match api
      case "rsDnsProtProfileManualTriggerStatus" => Some(EnableWords)
      case "rsDnsProtProfileFootprintStrictness" => Some(StrictnessWords)
      case _ => None)
    case 41 => if api == "rsDnsProtProfileSubdomainsWLLearningState" then Some(EnableWords) else None
    case _ => None
  }

  /** `FIELD_MAP` is the exact inverse of `REVERSE_FIELD_MAP`. */
  lemma ApiFieldInverts(user: string)
    ensures ApiField(user).Some? ==> UserField(ApiField(user).value) == Some(user)
  {
    match |user|
    case 6 => ApiFieldInvertsLen6(user);
    case 7 => ApiFieldInvertsLen7(user);
    case 8 => ApiFieldInvertsLen8(user);
    case 9 => ApiFieldInvertsLen9(user);
    case 10 => ApiFieldInvertsLen10(user);
    case 11 => ApiFieldInvertsLen11(user);
    case 12 => ApiFieldInvertsLen12(user);
    case 13 => ApiFieldInvertsLen13(user);
    case 14 => ApiFieldInvertsLen14(user);
    case 19 => ApiFieldInvertsLen19(user);
    case 20 => ApiFieldInvertsLen20(user);
    case 21 => ApiFieldInvertsLen21(user);
    case 22 => ApiFieldInvertsLen22(user);
    case 25 => ApiFieldInvertsLen25(user);
    case 26 => ApiFieldInvertsLen26(user);
    case 29 => ApiFieldInvertsLen29(user);
    case 30 => ApiFieldInvertsLen30(user);
    case _ =>
  }

  lemma ApiFieldInvertsLen6(user: string)
    requires |user| == 6
    ensures ApiField(user).Some? ==> UserField(ApiField(user).value) == Some(user)
  {
    if user == "action" {
      assert ApiField("action") == Some("rsDnsProtProfileAction");
      assert UserField("rsDnsProtProfileAction") == Some("action");
    }
  }

  lemma ApiFieldInvertsLen7(user: string)
    requires |user| == 7
    ensures ApiField(user).Some? ==> UserField(ApiField(user).value) == Some(user)
  {
    if user == "a_quota" {
      assert ApiField("a_quota") == Some("rsDnsProtProfileDnsAQuota");
      assert UserField("rsDnsProtProfileDnsAQuota") == Some("a_quota");
    }
  }

  lemma ApiFieldInvertsLen8(user: string)
    requires |user| == 8
    ensures ApiField(user).Some? ==> UserField(ApiField(user).value) == Some(user)
  {
    if user == "a_status" {
      assert ApiField("a_status") == Some("rsDnsProtProfileDnsAStatus");
      assert UserField("rsDnsProtProfileDnsAStatus") == Some("a_status");
    } else if user == "mx_quota" {
      assert ApiField("mx_quota") == Some("rsDnsProtProfileDnsMxQuota");
      assert UserField("rsDnsProtProfileDnsMxQuota") == Some("mx_quota");
    }
  }

  lemma ApiFieldInvertsLen9(user: string)
    requires |user| == 9
    ensures ApiField(user).Some? ==> UserField(ApiField(user).value) == Some(user)
  {
    if user == "mx_status" {
      assert ApiField("mx_status") == Some("rsDnsProtProfileDnsMxStatus");
      assert UserField("rsDnsProtProfileDnsMxStatus") == Some("mx_status");
    } else if user == "ptr_quota" {
      assert ApiField("ptr_quota") == Some("rsDnsProtProfileDnsPtrQuota");
      assert UserField("rsDnsProtProfileDnsPtrQuota") == Some("ptr_quota");
    } else if user == "soa_quota" {
      assert ApiField("soa_quota") == Some("rsDnsProtProfileDnsSoaQuota");
      assert UserField("rsDnsProtProfileDnsSoaQuota") == Some("soa_quota");
    } else if user == "srv_quota" {
      assert ApiField("srv_quota") == Some("rsDnsProtProfileDnsSrvQuota");
      assert UserField("rsDnsProtProfileDnsSrvQuota") == Some("srv_quota");
    }
  }

  lemma ApiFieldInvertsLen10(user: string)
    requires |user| == 10
    ensures ApiField(user).Some? ==> UserField(ApiField(user).value) == Some(user)
  {
    if user == "ptr_status" {
      assert ApiField("ptr_status") == Some("rsDnsProtProfileDnsPtrStatus");
      assert UserField("rsDnsProtProfileDnsPtrStatus") == Some("ptr_status");
    } else if user == "soa_status" {
      assert ApiField("soa_status") == Some("rsDnsProtProfileDnsSoaStatus");
      assert UserField("rsDnsProtProfileDnsSoaStatus") == Some("soa_status");
    } else if user == "srv_status" {
      assert ApiField("srv_status") == Some("rsDnsProtProfileDnsSrvStatus");
      assert UserField("rsDnsProtProfileDnsSrvStatus") == Some("srv_status");
    } else if user == "aaaa_quota" {
      assert ApiField("aaaa_quota") == Some("rsDnsProtProfileDnsAaaaQuota");
      assert UserField("rsDnsProtProfileDnsAaaaQuota") == Some("aaaa_quota");
    } else if user == "text_quota" {
      assert ApiField("text_quota") == Some("rsDnsProtProfileDnsTextQuota");
      assert UserField("rsDnsProtProfileDnsTextQuota") == Some("text_quota");
    }
  }

  lemma ApiFieldInvertsLen11(user: string)
    requires |user| == 11
    ensures ApiField(user).Some? ==> UserField(ApiField(user).value) == Some(user)
  {
    if user == "aaaa_status" {
      assert ApiField("aaaa_status") == Some("rsDnsProtProfileDnsAaaaStatus");
      assert UserField("rsDnsProtProfileDnsAaaaStatus") == Some("aaaa_status");
    } else if user == "text_status" {
      assert ApiField("text_status") == Some("rsDnsProtProfileDnsTextStatus");
      assert UserField("rsDnsProtProfileDnsTextStatus") == Some("text_status");
    } else if user == "naptr_quota" {
      assert ApiField("naptr_quota") == Some("rsDnsProtProfileDnsNaptrQuota");
      assert UserField("rsDnsProtProfileDnsNaptrQuota") == Some("naptr_quota");
    } else if user == "other_quota" {
      assert ApiField("other_quota") == Some("rsDnsProtProfileDnsOtherQuota");
      assert UserField("rsDnsProtProfileDnsOtherQuota") == Some("other_quota");
    }
  }

  lemma ApiFieldInvertsLen12(user: string)
    requires |user| == 12
    ensures ApiField(user).Some? ==> UserField(ApiField(user).value) == Some(user)
  {
    if user == "naptr_status" {
      assert ApiField("naptr_status") == Some("rsDnsProtProfileDnsNaptrStatus");
      assert UserField("rsDnsProtProfileDnsNaptrStatus") == Some("naptr_status");
    } else if user == "other_status" {
      assert ApiField("other_status") == Some("rsDnsProtProfileDnsOtherStatus");
      assert UserField("rsDnsProtProfileDnsOtherStatus") == Some("other_status");
    } else if user == "expected_qps" {
      assert ApiField("expected_qps") == Some("rsDnsProtProfileExpectedQps");
      assert UserField("rsDnsProtProfileExpectedQps") == Some("expected_qps");
    }
  }

  lemma ApiFieldInvertsLen13(user: string)
    requires |user| == 13
    ensures ApiField(user).Some? ==> UserField(ApiField(user).value) == Some(user)
  {
    if user == "max_allow_qps" {
      assert ApiField("max_allow_qps") == Some("rsDnsProtProfileMaxAllowQps");
      assert UserField("rsDnsProtProfileMaxAllowQps") == Some("max_allow_qps");
    } else if user == "packet_report" {
      assert ApiField("packet_report") == Some("rsDnsProtProfilePacketReportStatus");
      assert UserField("rsDnsProtProfilePacketReportStatus") == Some("packet_report");
    }
  }

  lemma ApiFieldInvertsLen14(user: string)
    requires |user| == 14
    ensures ApiField(user).Some? ==> UserField(ApiField(user).value) == Some(user)
  {
    if user == "manual_trigger" {
      assert ApiField("manual_trigger") == Some("rsDnsProtProfileManualTriggerStatus");
      assert UserField("rsDnsProtProfileManualTriggerStatus") == Some("manual_trigger");
    }
  }

  lemma ApiFieldInvertsLen19(user: string)
    requires |user| == 19
    ensures ApiField(user).Some? ==> UserField(ApiField(user).value) == Some(user)
  {
    if user == "sig_rate_lim_target" {
      assert ApiField("sig_rate_lim_target") == Some("rsDnsProtProfileSigRateLimTarget");
      assert UserField("rsDnsProtProfileSigRateLimTarget") == Some("sig_rate_lim_target");
    }
  }

  lemma ApiFieldInvertsLen20(user: string)
    requires |user| == 20
    ensures ApiField(user).Some? ==> UserField(ApiField(user).value) == Some(user)
  {
    if user == "footprint_strictness" {
      assert ApiField("footprint_strictness") == Some("rsDnsProtProfileFootprintStrictness");
      assert UserField("rsDnsProtProfileFootprintStrictness") == Some("footprint_strictness");
    }
  }

  lemma ApiFieldInvertsLen21(user: string)
    requires |user| == 21
    ensures ApiField(user).Some? ==> UserField(ApiField(user).value) == Some(user)
  {
    if user == "subdomains_allow_list" {
      assert ApiField("subdomains_allow_list") == Some("rsDnsProtProfileSubdomainsWLLearningState");
      assert UserField("rsDnsProtProfileSubdomainsWLLearningState") == Some("subdomains_allow_list");
    }
  }

  lemma ApiFieldInvertsLen22(user: string)
    requires |user| == 22
    ensures ApiField(user).Some? ==> UserField(ApiField(user).value) == Some(user)
  {
    if user == "query_name_sensitivity" {
      assert ApiField("query_name_sensitivity") == Some("rsDnsProtProfileQueryNameMonitoringSensitivity");
      assert UserField("rsDnsProtProfileQueryNameMonitoringSensitivity") == Some("query_name_sensitivity");
    }
  }

  lemma ApiFieldInvertsLen25(user: string)
    requires |user| == 25
    ensures ApiField(user).Some? ==> UserField(ApiField(user).value) == Some(user)
  {
    if user == "manual_trigger_act_thresh" {
      assert ApiField("manual_trigger_act_thresh") == Some("rsDnsProtProfileManualTriggerActThresh");
      assert UserField("rsDnsProtProfileManualTriggerActThresh") == Some("manual_trigger_act_thresh");
    } else if user == "manual_trigger_act_period" {
      assert ApiField("manual_trigger_act_period") == Some("rsDnsProtProfileManualTriggerActPeriod");
      assert UserField("rsDnsProtProfileManualTriggerActPeriod") == Some("manual_trigger_act_period");
    }
  }

  lemma ApiFieldInvertsLen26(user: string)
    requires |user| == 26
    ensures ApiField(user).Some? ==> UserField(ApiField(user).value) == Some(user)
  {
    if user == "manual_trigger_term_thresh" {
      assert ApiField("manual_trigger_term_thresh") == Some("rsDnsProtProfileManualTriggerTermThresh");
      assert UserField("rsDnsProtProfileManualTriggerTermThresh") == Some("manual_trigger_term_thresh");
    } else if user == "manual_trigger_term_period" {
      assert ApiField("manual_trigger_term_period") == Some("rsDnsProtProfileManualTriggerTermPeriod");
      assert UserField("rsDnsProtProfileManualTriggerTermPeriod") == Some("manual_trigger_term_period");
    }
  }

  lemma ApiFieldInvertsLen29(user: string)
    requires |user| == 29
    ensures ApiField(user).Some? ==> UserField(ApiField(user).value) == Some(user)
  {
    if user == "manual_trigger_max_qps_target" {
      assert ApiField("manual_trigger_max_qps_target") == Some("rsDnsProtProfileManualTriggerMaxQpsTarget");
      assert UserField("rsDnsProtProfileManualTriggerMaxQpsTarget") == Some("manual_trigger_max_qps_target");
    }
  }

  lemma ApiFieldInvertsLen30(user: string)
    requires |user| == 30
    ensures ApiField(user).Some? ==> UserField(ApiField(user).value) == Some(user)
  {
    if user == "manual_trigger_escalate_period" {
      assert ApiField("manual_trigger_escalate_period") == Some("rsDnsProtProfileManualTriggerEscalatePeriod");
      assert UserField("rsDnsProtProfileManualTriggerEscalatePeriod") == Some("manual_trigger_escalate_period");
    } else if user == "learning_suppression_threshold" {
      assert ApiField("learning_suppression_threshold") == Some("rsDnsProtProfileLearningSuppressionThreshold");
      assert UserField("rsDnsProtProfileLearningSuppressionThreshold") == Some("learning_suppression_threshold");
    }
  }


  /** The values of `REVERSE_FIELD_MAP` are distinct, so every API field comes back. */
  lemma UserFieldInverts(api: string)
    ensures UserField(api).Some? ==> ApiField(UserField(api).value) == Some(api)
  {
    match |api|
    case 22 => UserFieldInvertsLen22(api);
    case 25 => UserFieldInvertsLen25(api);
    case 26 => UserFieldInvertsLen26(api);
    case 27 => UserFieldInvertsLen27(api);
    case 28 => UserFieldInvertsLen28(api);
    case 29 => UserFieldInvertsLen29(api);
    case 30 => UserFieldInvertsLen30(api);
    case 32 => UserFieldInvertsLen32(api);
    case 34 => UserFieldInvertsLen34(api);
    case 35 => UserFieldInvertsLen35(api);
    case 38 => UserFieldInvertsLen38(api);
    case 39 => UserFieldInvertsLen39(api);
    case 41 => UserFieldInvertsLen41(api);
    case 43 => UserFieldInvertsLen43(api);
    case 44 => UserFieldInvertsLen44(api);
    case 46 => UserFieldInvertsLen46(api);
    case _ =>
  }

  lemma UserFieldInvertsLen22(api: string)
    requires |api| == 22
    ensures UserField(api).Some? ==> ApiField(UserField(api).value) == Some(api)
  {
    if api == "rsDnsProtProfileAction" {
      assert UserField("rsDnsProtProfileAction") == Some("action");
      assert ApiField("action") == Some("rsDnsProtProfileAction");
    }
  }

  lemma UserFieldInvertsLen25(api: string)
    requires |api| == 25
    ensures UserField(api).Some? ==> ApiField(UserField(api).value) == Some(api)
  {
    if api == "rsDnsProtProfileDnsAQuota" {
      assert UserField("rsDnsProtProfileDnsAQuota") == Some("a_quota");
      assert ApiField("a_quota") == Some("rsDnsProtProfileDnsAQuota");
    }
  }

  lemma UserFieldInvertsLen26(api: string)
    requires |api| == 26
    ensures UserField(api).Some? ==> ApiField(UserField(api).value) == Some(api)
  {
    if api == "rsDnsProtProfileDnsAStatus" {
      assert UserField("rsDnsProtProfileDnsAStatus") == Some("a_status");
      assert ApiField("a_status") == Some("rsDnsProtProfileDnsAStatus");
    } else if api == "rsDnsProtProfileDnsMxQuota" {
      assert UserField("rsDnsProtProfileDnsMxQuota") == Some("mx_quota");
      assert ApiField("mx_quota") == Some("rsDnsProtProfileDnsMxQuota");
    }
  }

  lemma UserFieldInvertsLen27(api: string)
    requires |api| == 27
    ensures UserField(api).Some? ==> ApiField(UserField(api).value) == Some(api)
  {
    if api == "rsDnsProtProfileDnsMxStatus" {
      assert UserField("rsDnsProtProfileDnsMxStatus") == Some("mx_status");
      assert ApiField("mx_status") == Some("rsDnsProtProfileDnsMxStatus");
    } else if api == "rsDnsProtProfileExpectedQps" {
      assert UserField("rsDnsProtProfileExpectedQps") == Some("expected_qps");
      assert ApiField("expected_qps") == Some("rsDnsProtProfileExpectedQps");
    } else if api == "rsDnsProtProfileMaxAllowQps" {
      assert UserField("rsDnsProtProfileMaxAllowQps") == Some("max_allow_qps");
      assert ApiField("max_allow_qps") == Some("rsDnsProtProfileMaxAllowQps");
    } else if api == "rsDnsProtProfileDnsPtrQuota" {
      assert UserField("rsDnsProtProfileDnsPtrQuota") == Some("ptr_quota");
      assert ApiField("ptr_quota") == Some("rsDnsProtProfileDnsPtrQuota");
    } else if api == "rsDnsProtProfileDnsSoaQuota" {
      assert UserField("rsDnsProtProfileDnsSoaQuota") == Some("soa_quota");
      assert ApiField("soa_quota") == Some("rsDnsProtProfileDnsSoaQuota");
    } else if api == "rsDnsProtProfileDnsSrvQuota" {
      assert UserField("rsDnsProtProfileDnsSrvQuota") == Some("srv_quota");
      assert ApiField("srv_quota") == Some("rsDnsProtProfileDnsSrvQuota");
    }
  }

  lemma UserFieldInvertsLen28(api: string)
    requires |api| == 28
    ensures UserField(api).Some? ==> ApiField(UserField(api).value) == Some(api)
  {
    if api == "rsDnsProtProfileDnsPtrStatus" {
      assert UserField("rsDnsProtProfileDnsPtrStatus") == Some("ptr_status");
      assert ApiField("ptr_status") == Some("rsDnsProtProfileDnsPtrStatus");
    } else if api == "rsDnsProtProfileDnsSoaStatus" {
      assert UserField("rsDnsProtProfileDnsSoaStatus") == Some("soa_status");
      assert ApiField("soa_status") == Some("rsDnsProtProfileDnsSoaStatus");
    } else if api == "rsDnsProtProfileDnsSrvStatus" {
      assert UserField("rsDnsProtProfileDnsSrvStatus") == Some("srv_status");
      assert ApiField("srv_status") == Some("rsDnsProtProfileDnsSrvStatus");
    } else if api == "rsDnsProtProfileDnsAaaaQuota" {
      assert UserField("rsDnsProtProfileDnsAaaaQuota") == Some("aaaa_quota");
      assert ApiField("aaaa_quota") == Some("rsDnsProtProfileDnsAaaaQuota");
    } else if api == "rsDnsProtProfileDnsTextQuota" {
      assert UserField("rsDnsProtProfileDnsTextQuota") == Some("text_quota");
      assert ApiField("text_quota") == Some("rsDnsProtProfileDnsTextQuota");
    }
  }

  lemma UserFieldInvertsLen29(api: string)
    requires |api| == 29
    ensures UserField(api).Some? ==> ApiField(UserField(api).value) == Some(api)
  {
    if api == "rsDnsProtProfileDnsAaaaStatus" {
      assert UserField("rsDnsProtProfileDnsAaaaStatus") == Some("aaaa_status");
      assert ApiField("aaaa_status") == Some("rsDnsProtProfileDnsAaaaStatus");
    } else if api == "rsDnsProtProfileDnsTextStatus" {
      assert UserField("rsDnsProtProfileDnsTextStatus") == Some("text_status");
      assert ApiField("text_status") == Some("rsDnsProtProfileDnsTextStatus");
    } else if api == "rsDnsProtProfileDnsNaptrQuota" {
      assert UserField("rsDnsProtProfileDnsNaptrQuota") == Some("naptr_quota");
      assert ApiField("naptr_quota") == Some("rsDnsProtProfileDnsNaptrQuota");
    } else if api == "rsDnsProtProfileDnsOtherQuota" {
      assert UserField("rsDnsProtProfileDnsOtherQuota") == Some("other_quota");
      assert ApiField("other_quota") == Some("rsDnsProtProfileDnsOtherQuota");
    }
  }

  lemma UserFieldInvertsLen30(api: string)
    requires |api| == 30
    ensures UserField(api).Some? ==> ApiField(UserField(api).value) == Some(api)
  {
    if api == "rsDnsProtProfileDnsNaptrStatus" {
      assert UserField("rsDnsProtProfileDnsNaptrStatus") == Some("naptr_status");
      assert ApiField("naptr_status") == Some("rsDnsProtProfileDnsNaptrStatus");
    } else if api == "rsDnsProtProfileDnsOtherStatus" {
      assert UserField("rsDnsProtProfileDnsOtherStatus") == Some("other_status");
      assert ApiField("other_status") == Some("rsDnsProtProfileDnsOtherStatus");
    }
  }

  lemma UserFieldInvertsLen32(api: string)
    requires |api| == 32
    ensures UserField(api).Some? ==> ApiField(UserField(api).value) == Some(api)
  {
    if api == "rsDnsProtProfileSigRateLimTarget" {
      assert UserField("rsDnsProtProfileSigRateLimTarget") == Some("sig_rate_lim_target");
      assert ApiField("sig_rate_lim_target") == Some("rsDnsProtProfileSigRateLimTarget");
    }
  }

  lemma UserFieldInvertsLen34(api: string)
    requires |api| == 34
    ensures UserField(api).Some? ==> ApiField(UserField(api).value) == Some(api)
  {
    if api == "rsDnsProtProfilePacketReportStatus" {
      assert UserField("rsDnsProtProfilePacketReportStatus") == Some("packet_report");
      assert ApiField("packet_report") == Some("rsDnsProtProfilePacketReportStatus");
    }
  }

  lemma UserFieldInvertsLen35(api: string)
    requires |api| == 35
    ensures UserField(api).Some? ==> ApiField(UserField(api).value) == Some(api)
  {
    if api == "rsDnsProtProfileFootprintStrictness" {
      assert UserField("rsDnsProtProfileFootprintStrictness") == Some("footprint_strictness");
      assert ApiField("footprint_strictness") == Some("rsDnsProtProfileFootprintStrictness");
    } else if api == "rsDnsProtProfileManualTriggerStatus" {
      assert UserField("rsDnsProtProfileManualTriggerStatus") == Some("manual_trigger");
      assert ApiField("manual_trigger") == Some("rsDnsProtProfileManualTriggerStatus");
    }
  }

  lemma UserFieldInvertsLen38(api: string)
    requires |api| == 38
    ensures UserField(api).Some? ==> ApiField(UserField(api).value) == Some(api)
  {
    if api == "rsDnsProtProfileManualTriggerActThresh" {
      assert UserField("rsDnsProtProfileManualTriggerActThresh") == Some("manual_trigger_act_thresh");
      assert ApiField("manual_trigger_act_thresh") == Some("rsDnsProtProfileManualTriggerActThresh");
    } else if api == "rsDnsProtProfileManualTriggerActPeriod" {
      assert UserField("rsDnsProtProfileManualTriggerActPeriod") == Some("manual_trigger_act_period");
      assert ApiField("manual_trigger_act_period") == Some("rsDnsProtProfileManualTriggerActPeriod");
    }
  }

  lemma UserFieldInvertsLen39(api: string)
    requires |api| == 39
    ensures UserField(api).Some? ==> ApiField(UserField(api).value) == Some(api)
  {
    if api == "rsDnsProtProfileManualTriggerTermThresh" {
      assert UserField("rsDnsProtProfileManualTriggerTermThresh") == Some("manual_trigger_term_thresh");
      assert ApiField("manual_trigger_term_thresh") == Some("rsDnsProtProfileManualTriggerTermThresh");
    } else if api == "rsDnsProtProfileManualTriggerTermPeriod" {
      assert UserField("rsDnsProtProfileManualTriggerTermPeriod") == Some("manual_trigger_term_period");
      assert ApiField("manual_trigger_term_period") == Some("rsDnsProtProfileManualTriggerTermPeriod");
    }
  }

  lemma UserFieldInvertsLen41(api: string)
    requires |api| == 41
    ensures UserField(api).Some? ==> ApiField(UserField(api).value) == Some(api)
  {
    if api == "rsDnsProtProfileManualTriggerMaxQpsTarget" {
      assert UserField("rsDnsProtProfileManualTriggerMaxQpsTarget") == Some("manual_trigger_max_qps_target");
      assert ApiField("manual_trigger_max_qps_target") == Some("rsDnsProtProfileManualTriggerMaxQpsTarget");
    } else if api == "rsDnsProtProfileSubdomainsWLLearningState" {
      assert UserField("rsDnsProtProfileSubdomainsWLLearningState") == Some("subdomains_allow_list");
      assert ApiField("subdomains_allow_list") == Some("rsDnsProtProfileSubdomainsWLLearningState");
    }
  }

  lemma UserFieldInvertsLen43(api: string)
    requires |api| == 43
    ensures UserField(api).Some? ==> ApiField(UserField(api).value) == Some(api)
  {
    if api == "rsDnsProtProfileManualTriggerEscalatePeriod" {
      assert UserField("rsDnsProtProfileManualTriggerEscalatePeriod") == Some("manual_trigger_escalate_period");
      assert ApiField("manual_trigger_escalate_period") == Some("rsDnsProtProfileManualTriggerEscalatePeriod");
    }
  }

  lemma UserFieldInvertsLen44(api: string)
    requires |api| == 44
    ensures UserField(api).Some? ==> ApiField(UserField(api).value) == Some(api)
  {
    if api == "rsDnsProtProfileLearningSuppressionThreshold" {
      assert UserField("rsDnsProtProfileLearningSuppressionThreshold") == Some("learning_suppression_threshold");
      assert ApiField("learning_suppression_threshold") == Some("rsDnsProtProfileLearningSuppressionThreshold");
    }
  }

  lemma UserFieldInvertsLen46(api: string)
    requires |api| == 46
    ensures UserField(api).Some? ==> ApiField(UserField(api).value) == Some(api)
  {
    if api == "rsDnsProtProfileQueryNameMonitoringSensitivity" {
      assert UserField("rsDnsProtProfileQueryNameMonitoringSensitivity") == Some("query_name_sensitivity");
      assert ApiField("query_name_sensitivity") == Some("rsDnsProtProfileQueryNameMonitoringSensitivity");
    }
  }


  /** A friendly field is enumerated exactly when its API field is, and then the reverse table
      maps every code back to its word. */
  /** The enumerated fields share one of three code tables, and their API fields the matching word table. */
  predicate EnumShapesAgree(user: string)
    requires ApiField(user).Some?
  {
    (EnumCodes(user) == Some(EnableCodes) && EnumWords(ApiField(user).value) == Some(EnableWords)) ||
    (EnumCodes(user) == Some(ActionCodes) && EnumWords(ApiField(user).value) == Some(ActionWords)) ||
    (EnumCodes(user) == Some(StrictnessCodes) && EnumWords(ApiField(user).value) == Some(StrictnessWords)) ||
    (EnumCodes(user).None? && EnumWords(ApiField(user).value).None?)
  }

  lemma EnumTablesAgree(user: string)
    requires ApiField(user).Some?
    ensures EnumCodes(user).Some? <==> EnumWords(ApiField(user).value).Some?
    ensures EnumCodes(user).Some? ==> WordsInvert(EnumCodes(user).value, EnumWords(ApiField(user).value).value)
  {
    EnumWordsInvert();
    EnumTablesAgreeCases(user);
  }

  /** Each reverse enum table undoes its forward table. */
  lemma EnumWordsInvert()
    ensures WordsInvert(EnableCodes, EnableWords)
    ensures WordsInvert(ActionCodes, ActionWords)
    ensures WordsInvert(StrictnessCodes, StrictnessWords)
  {
    assert WordsInvert(EnableCodes, EnableWords);
    assert WordsInvert(ActionCodes, ActionWords);
    assert WordsInvert(StrictnessCodes, StrictnessWords);
  }

  lemma EnumTablesAgreeCases(user: string)
    ensures ApiField(user).Some? ==> EnumShapesAgree(user)
  {
    match |user|
    case 6 => EnumTablesAgreeCasesLen6(user);
    case 7 => EnumTablesAgreeCasesLen7(user);
    case 8 => EnumTablesAgreeCasesLen8(user);
    case 9 => EnumTablesAgreeCasesLen9(user);
    case 10 => EnumTablesAgreeCasesLen10(user);
    case 11 => EnumTablesAgreeCasesLen11(user);
    case 12 => EnumTablesAgreeCasesLen12(user);
    case 13 => EnumTablesAgreeCasesLen13(user);
    case 14 => EnumTablesAgreeCasesLen14(user);
    case 19 => EnumTablesAgreeCasesLen19(user);
    case 20 => EnumTablesAgreeCasesLen20(user);
    case 21 => EnumTablesAgreeCasesLen21(user);
    case 22 => EnumTablesAgreeCasesLen22(user);
    case 25 => EnumTablesAgreeCasesLen25(user);
    case 26 => EnumTablesAgreeCasesLen26(user);
    case 29 => EnumTablesAgreeCasesLen29(user);
    case 30 => EnumTablesAgreeCasesLen30(user);
    case _ =>
  }

  lemma EnumTablesAgreeCasesLen6(user: string)
    requires |user| == 6
    ensures ApiField(user).Some? ==> EnumShapesAgree(user)
  {
    if user == "action" {
      assert ApiField("action") == Some("rsDnsProtProfileAction");
      assert EnumCodes("action") == Some(ActionCodes);
      assert EnumWords("rsDnsProtProfileAction") == Some(ActionWords);
    }
  }

  lemma EnumTablesAgreeCasesLen7(user: string)
    requires |user| == 7
    ensures ApiField(user).Some? ==> EnumShapesAgree(user)
  {
    if user == "a_quota" {
      assert ApiField("a_quota") == Some("rsDnsProtProfileDnsAQuota");
      assert EnumCodes("a_quota") == None;
      assert EnumWords("rsDnsProtProfileDnsAQuota") == None;
    }
  }

  lemma EnumTablesAgreeCasesLen8(user: string)
    requires |user| == 8
    ensures ApiField(user).Some? ==> EnumShapesAgree(user)
  {
    if user == "a_status" {
      assert ApiField("a_status") == Some("rsDnsProtProfileDnsAStatus");
      assert EnumCodes("a_status") == Some(EnableCodes);
      assert EnumWords("rsDnsProtProfileDnsAStatus") == Some(EnableWords);
    } else if user == "mx_quota" {
      assert ApiField("mx_quota") == Some("rsDnsProtProfileDnsMxQuota");
      assert EnumCodes("mx_quota") == None;
      assert EnumWords("rsDnsProtProfileDnsMxQuota") == None;
    }
  }

  lemma EnumTablesAgreeCasesLen9(user: string)
    requires |user| == 9
    ensures ApiField(user).Some? ==> EnumShapesAgree(user)
  {
    if user == "mx_status" {
      assert ApiField("mx_status") == Some("rsDnsProtProfileDnsMxStatus");
      assert EnumCodes("mx_status") == Some(EnableCodes);
      assert EnumWords("rsDnsProtProfileDnsMxStatus") == Some(EnableWords);
    } else if user == "ptr_quota" {
      assert ApiField("ptr_quota") == Some("rsDnsProtProfileDnsPtrQuota");
      assert EnumCodes("ptr_quota") == None;
      assert EnumWords("rsDnsProtProfileDnsPtrQuota") == None;
    } else if user == "soa_quota" {
      assert ApiField("soa_quota") == Some("rsDnsProtProfileDnsSoaQuota");
      assert EnumCodes("soa_quota") == None;
      assert EnumWords("rsDnsProtProfileDnsSoaQuota") == None;
    } else if user == "srv_quota" {
      assert ApiField("srv_quota") == Some("rsDnsProtProfileDnsSrvQuota");
      assert EnumCodes("srv_quota") == None;
      assert EnumWords("rsDnsProtProfileDnsSrvQuota") == None;
    }
  }

  lemma EnumTablesAgreeCasesLen10(user: string)
    requires |user| == 10
    ensures ApiField(user).Some? ==> EnumShapesAgree(user)
  {
    if user == "ptr_status" {
      assert ApiField("ptr_status") == Some("rsDnsProtProfileDnsPtrStatus");
      assert EnumCodes("ptr_status") == Some(EnableCodes);
      assert EnumWords("rsDnsProtProfileDnsPtrStatus") == Some(EnableWords);
    } else if user == "soa_status" {
      assert ApiField("soa_status") == Some("rsDnsProtProfileDnsSoaStatus");
      assert EnumCodes("soa_status") == Some(EnableCodes);
      assert EnumWords("rsDnsProtProfileDnsSoaStatus") == Some(EnableWords);
    } else if user == "srv_status" {
      assert ApiField("srv_status") == Some("rsDnsProtProfileDnsSrvStatus");
      assert EnumCodes("srv_status") == Some(EnableCodes);
      assert EnumWords("rsDnsProtProfileDnsSrvStatus") == Some(EnableWords);
    } else if user == "aaaa_quota" {
      assert ApiField("aaaa_quota") == Some("rsDnsProtProfileDnsAaaaQuota");
      assert EnumCodes("aaaa_quota") == None;
      assert EnumWords("rsDnsProtProfileDnsAaaaQuota") == None;
    } else if user == "text_quota" {
      assert ApiField("text_quota") == Some("rsDnsProtProfileDnsTextQuota");
      assert EnumCodes("text_quota") == None;
      assert EnumWords("rsDnsProtProfileDnsTextQuota") == None;
    }
  }

  lemma EnumTablesAgreeCasesLen11(user: string)
    requires |user| == 11
    ensures ApiField(user).Some? ==> EnumShapesAgree(user)
  {
    if user == "aaaa_status" {
      assert ApiField("aaaa_status") == Some("rsDnsProtProfileDnsAaaaStatus");
      assert EnumCodes("aaaa_status") == Some(EnableCodes);
      assert EnumWords("rsDnsProtProfileDnsAaaaStatus") == Some(EnableWords);
    } else if user == "text_status" {
      assert ApiField("text_status") == Some("rsDnsProtProfileDnsTextStatus");
      assert EnumCodes("text_status") == Some(EnableCodes);
      assert EnumWords("rsDnsProtProfileDnsTextStatus") == Some(EnableWords);
    } else if user == "naptr_quota" {
      assert ApiField("naptr_quota") == Some("rsDnsProtProfileDnsNaptrQuota");
      assert EnumCodes("naptr_quota") == None;
      assert EnumWords("rsDnsProtProfileDnsNaptrQuota") == None;
    } else if user == "other_quota" {
      assert ApiField("other_quota") == Some("rsDnsProtProfileDnsOtherQuota");
      assert EnumCodes("other_quota") == None;
      assert EnumWords("rsDnsProtProfileDnsOtherQuota") == None;
    }
  }

  lemma EnumTablesAgreeCasesLen12(user: string)
    requires |user| == 12
    ensures ApiField(user).Some? ==> EnumShapesAgree(user)
  {
    if user == "naptr_status" {
      assert ApiField("naptr_status") == Some("rsDnsProtProfileDnsNaptrStatus");
      assert EnumCodes("naptr_status") == Some(EnableCodes);
      assert EnumWords("rsDnsProtProfileDnsNaptrStatus") == Some(EnableWords);
    } else if user == "other_status" {
      assert ApiField("other_status") == Some("rsDnsProtProfileDnsOtherStatus");
      assert EnumCodes("other_status") == Some(EnableCodes);
      assert EnumWords("rsDnsProtProfileDnsOtherStatus") == Some(EnableWords);
    } else if user == "expected_qps" {
      assert ApiField("expected_qps") == Some("rsDnsProtProfileExpectedQps");
      assert EnumCodes("expected_qps") == None;
      assert EnumWords("rsDnsProtProfileExpectedQps") == None;
    }
  }

  lemma EnumTablesAgreeCasesLen13(user: string)
    requires |user| == 13
    ensures ApiField(user).Some? ==> EnumShapesAgree(user)
  {
    if user == "max_allow_qps" {
      assert ApiField("max_allow_qps") == Some("rsDnsProtProfileMaxAllowQps");
      assert EnumCodes("max_allow_qps") == None;
      assert EnumWords("rsDnsProtProfileMaxAllowQps") == None;
    } else if user == "packet_report" {
      assert ApiField("packet_report") == Some("rsDnsProtProfilePacketReportStatus");
      assert EnumCodes("packet_report") == Some(EnableCodes);
      assert EnumWords("rsDnsProtProfilePacketReportStatus") == Some(EnableWords);
    }
  }

  lemma EnumTablesAgreeCasesLen14(user: string)
    requires |user| == 14
    ensures ApiField(user).Some? ==> EnumShapesAgree(user)
  {
    if user == "manual_trigger" {
      assert ApiField("manual_trigger") == Some("rsDnsProtProfileManualTriggerStatus");
      assert EnumCodes("manual_trigger") == Some(EnableCodes);
      assert EnumWords("rsDnsProtProfileManualTriggerStatus") == Some(EnableWords);
    }
  }

  lemma EnumTablesAgreeCasesLen19(user: string)
    requires |user| == 19
    ensures ApiField(user).Some? ==> EnumShapesAgree(user)
  {
    if user == "sig_rate_lim_target" {
      assert ApiField("sig_rate_lim_target") == Some("rsDnsProtProfileSigRateLimTarget");
      assert EnumCodes("sig_rate_lim_target") == None;
      assert EnumWords("rsDnsProtProfileSigRateLimTarget") == None;
    }
  }

  lemma EnumTablesAgreeCasesLen20(user: string)
    requires |user| == 20
    ensures ApiField(user).Some? ==> EnumShapesAgree(user)
  {
    if user == "footprint_strictness" {
      assert ApiField("footprint_strictness") == Some("rsDnsProtProfileFootprintStrictness");
      assert EnumCodes("footprint_strictness") == Some(StrictnessCodes);
      assert EnumWords("rsDnsProtProfileFootprintStrictness") == Some(StrictnessWords);
    }
  }

  lemma EnumTablesAgreeCasesLen21(user: string)
    requires |user| == 21
    ensures ApiField(user).Some? ==> EnumShapesAgree(user)
  {
    if user == "subdomains_allow_list" {
      assert ApiField("subdomains_allow_list") == Some("rsDnsProtProfileSubdomainsWLLearningState");
      assert EnumCodes("subdomains_allow_list") == Some(EnableCodes);
      assert EnumWords("rsDnsProtProfileSubdomainsWLLearningState") == Some(EnableWords);
    }
  }

  lemma EnumTablesAgreeCasesLen22(user: string)
    requires |user| == 22
    ensures ApiField(user).Some? ==> EnumShapesAgree(user)
  {
    if user == "query_name_sensitivity" {
      assert ApiField("query_name_sensitivity") == Some("rsDnsProtProfileQueryNameMonitoringSensitivity");
      assert EnumCodes("query_name_sensitivity") == None;
      assert EnumWords("rsDnsProtProfileQueryNameMonitoringSensitivity") == None;
    }
  }

  lemma EnumTablesAgreeCasesLen25(user: string)
    requires |user| == 25
    ensures ApiField(user).Some? ==> EnumShapesAgree(user)
  {
    if user == "manual_trigger_act_thresh" {
      assert ApiField("manual_trigger_act_thresh") == Some("rsDnsProtProfileManualTriggerActThresh");
      assert EnumCodes("manual_trigger_act_thresh") == None;
      assert EnumWords("rsDnsProtProfileManualTriggerActThresh") == None;
    } else if user == "manual_trigger_act_period" {
      assert ApiField("manual_trigger_act_period") == Some("rsDnsProtProfileManualTriggerActPeriod");
      assert EnumCodes("manual_trigger_act_period") == None;
      assert EnumWords("rsDnsProtProfileManualTriggerActPeriod") == None;
    }
  }

  lemma EnumTablesAgreeCasesLen26(user: string)
    requires |user| == 26
    ensures ApiField(user).Some? ==> EnumShapesAgree(user)
  {
    if user == "manual_trigger_term_thresh" {
      assert ApiField("manual_trigger_term_thresh") == Some("rsDnsProtProfileManualTriggerTermThresh");
      assert EnumCodes("manual_trigger_term_thresh") == None;
      assert EnumWords("rsDnsProtProfileManualTriggerTermThresh") == None;
    } else if user == "manual_trigger_term_period" {
      assert ApiField("manual_trigger_term_period") == Some("rsDnsProtProfileManualTriggerTermPeriod");
      assert EnumCodes("manual_trigger_term_period") == None;
      assert EnumWords("rsDnsProtProfileManualTriggerTermPeriod") == None;
    }
  }

  lemma EnumTablesAgreeCasesLen29(user: string)
    requires |user| == 29
    ensures ApiField(user).Some? ==> EnumShapesAgree(user)
  {
    if user == "manual_trigger_max_qps_target" {
      assert ApiField("manual_trigger_max_qps_target") == Some("rsDnsProtProfileManualTriggerMaxQpsTarget");
      assert EnumCodes("manual_trigger_max_qps_target") == None;
      assert EnumWords("rsDnsProtProfileManualTriggerMaxQpsTarget") == None;
    }
  }

  lemma EnumTablesAgreeCasesLen30(user: string)
    requires |user| == 30
    ensures ApiField(user).Some? ==> EnumShapesAgree(user)
  {
    if user == "manual_trigger_escalate_period" {
      assert ApiField("manual_trigger_escalate_period") == Some("rsDnsProtProfileManualTriggerEscalatePeriod");
      assert EnumCodes("manual_trigger_escalate_period") == None;
      assert EnumWords("rsDnsProtProfileManualTriggerEscalatePeriod") == None;
    } else if user == "learning_suppression_threshold" {
      assert ApiField("learning_suppression_threshold") == Some("rsDnsProtProfileLearningSuppressionThreshold");
      assert EnumCodes("learning_suppression_threshold") == None;
      assert EnumWords("rsDnsProtProfileLearningSuppressionThreshold") == None;
    }
  }


  // ---------------------------------------------------------------------------------------------
  // The two mappers
  // ---------------------------------------------------------------------------------------------

  /** The message of the `ValueError` for a word outside a code table. */
  function InvalidValue(key: string, value: Value, codes: Table): string
  {
    "Invalid value '" + Str(value) + "' for " + key + ". Allowed: " + Str(KeyList(codes))
  }

  /** One pair of `map_dns_profile_parameters`: unknown keys are dropped, enumerated values are
      looked up lowercased and must be found, other values are stringified. */
  function MapStep(key: string, value: Value): Emit
  {
    match ApiField(key)
    case None => Skip
    case Some(api) =>
      match EnumCodes(key)
      case None => Emit(api, VStr(Str(value)))
      case Some(codes) =>
        match Get(codes, Lower(Str(value)))
        case Some(code) => Emit(api, VStr(code))
        case None => Reject(InvalidValue(key, value, codes))
  }

  /** One pair of `map_api_values_to_user_friendly`: every key is kept (renamed when known), and
      a code of an enumerated field becomes its word when the table has it. */
  function BackStep(key: string, value: Value): Emit
  {
    var name := match UserField(key) case Some(u) => u case None => key;
    match EnumWords(key)
    case None => Emit(name, value)
    case Some(words) =>
      match Get(words, Str(value))
      case Some(w) => Emit(name, VStr(w))
      case None => Emit(name, value)
  }

  /** The reference for a round trip: the known friendly keys, with enumerated values lowercased
      (and rejected as the mapper rejects them) and every other value stringified. */
  function NormStep(key: string, value: Value): Emit
  {
    match ApiField(key)
    case None => Skip
    case Some(_) =>
      match EnumCodes(key)
      case None => Emit(key, VStr(Str(value)))
      case Some(codes) =>
        if Get(codes, Lower(Str(value))).Some? then Emit(key, VStr(Lower(Str(value))))
        else Reject(InvalidValue(key, value, codes))
  }

  method MapDnsProfileParameters(params: Dict) returns (r: Result<Dict>)
    ensures r == Translate(params, MapStep)
  {
    r := TranslateLoop(params, MapStep);
  }

  method MapApiValuesToUserFriendly(apiParams: Dict) returns (r: Dict)
    ensures Translate(apiParams, BackStep) == Ok(r)
  {
    TranslateTotal(apiParams, BackStep);
    var t := TranslateLoop(apiParams, BackStep);
    r := t.value;
  }

  /** What one pair becomes: dropped exactly when the key is unknown, rejected exactly when a
      known enumerated value is outside its table, and otherwise renamed to its API field. */
  lemma MapStepShape(key: string, value: Value)
    ensures MapStep(key, value).Skip? <==> ApiField(key).None?
    ensures MapStep(key, value).Reject? <==>
      ApiField(key).Some? && EnumCodes(key).Some? && Get(EnumCodes(key).value, Lower(Str(value))).None?
    ensures MapStep(key, value).Emit? ==> ApiField(key) == Some(MapStep(key, value).key)
  {
  }

  /** The mapper raises exactly when some known enumerated value is outside its table, and
      otherwise keeps exactly the API names of the known friendly keys. */
  lemma MapperContents(params: Dict)
    ensures Translate(params, MapStep).Err? <==>
      exists i :: 0 <= i < |params| && ApiField(params[i].0).Some? && EnumCodes(params[i].0).Some? &&
                  Get(EnumCodes(params[i].0).value, Lower(Str(params[i].1))).None?
    ensures Translate(params, MapStep).Ok? ==> forall k ::
      k in Keys(Translate(params, MapStep).value) <==>
        exists i :: 0 <= i < |params| && ApiField(params[i].0) == Some(k)
  {
    forall i | 0 <= i < |params|
      ensures StepAt(params, MapStep, i).Reject? <==>
        ApiField(params[i].0).Some? && EnumCodes(params[i].0).Some? &&
        Get(EnumCodes(params[i].0).value, Lower(Str(params[i].1))).None?
    {
      MapStepShape(params[i].0, params[i].1);
    }
    TranslateRaises(params, MapStep);
    if Translate(params, MapStep).Ok? {
      TranslateContents(params, MapStep);
      forall i | 0 <= i < |params|
        ensures ApiField(params[i].0).Some? <==> StepAt(params, MapStep, i).Emit?
        ensures StepAt(params, MapStep, i).Emit? ==> ApiField(params[i].0) == Some(StepAt(params, MapStep, i).key)
      {
        MapStepShape(params[i].0, params[i].1);
      }
    }
  }

  /** The reverse mapper keeps an unknown API key, and an unknown code, unchanged. */
  lemma ReverseKeepsUnknown(key: string, value: Value)
    ensures UserField(key).None? ==> BackStep(key, value).key == key
    ensures (EnumWords(key).None? || Get(EnumWords(key).value, Str(value)).None?) ==> BackStep(key, value).value == value
  {
  }

  lemma MapStepInjective()
    ensures Injective(MapStep)
  {
    forall k1, v1, k2, v2 | MapStep(k1, v1).Emit? && MapStep(k2, v2).Emit? && MapStep(k1, v1).key == MapStep(k2, v2).key
      ensures k1 == k2
    {
      ApiFieldInverts(k1);
      ApiFieldInverts(k2);
    }
  }

  /** Round trip: reverse-mapping what the mapper produced gives back the accepted input
      restricted to the known keys, with enumerated words lowercased and other values
      stringified. */
  lemma MapperRoundTrip(params: Dict)
    requires UniqueKeys(params) && Translate(params, MapStep).Ok?
    ensures Translate(Translate(params, MapStep).value, BackStep) == Translate(params, NormStep)
  {
    MapStepInjective();
    forall k, v | MapStep(k, v).Emit? ensures BackStep(MapStep(k, v).key, MapStep(k, v).value) == NormStep(k, v) {
      ApiFieldInverts(k);
      EnumTablesAgree(k);
    }
    RoundTrip(params, MapStep, BackStep, NormStep);
  }

  // ---------------------------------------------------------------------------------------------
  // Phases
  // ---------------------------------------------------------------------------------------------

  /** `phase2_keys`: the nine quota fields, applied by a PUT after the profile exists. */
  predicate IsQuota(api: string)
  {
    api in ["rsDnsProtProfileDnsAQuota", "rsDnsProtProfileDnsMxQuota", "rsDnsProtProfileDnsPtrQuota",
            "rsDnsProtProfileDnsAaaaQuota", "rsDnsProtProfileDnsTextQuota", "rsDnsProtProfileDnsSoaQuota",
            "rsDnsProtProfileDnsNaptrQuota", "rsDnsProtProfileDnsSrvQuota", "rsDnsProtProfileDnsOtherQuota"]
  }

  function Phase1(api: Dict): Dict { Omit(api, IsQuota) }

  function Phase2(api: Dict): Dict { Select(api, IsQuota) }

  /** The quota phase holds exactly the quota fields, the first phase everything else. */
  lemma PhasesPartition(api: Dict)
    ensures |Phase1(api)| + |Phase2(api)| == |api|
    ensures forall e :: e in Phase2(api) <==> e in api && IsQuota(e.0)
    ensures forall e :: e in Phase1(api) <==> e in api && !IsQuota(e.0)
  {
    SplitPartition(api, IsQuota);
  }

  // ---------------------------------------------------------------------------------------------
  // The batch loop
  // ---------------------------------------------------------------------------------------------

  datatype Created = Created(name: Value, phase1: Dict, phase2: Dict, friendly1: Dict, friendly2: Dict)

  datatype Batch = Batch(changed: bool, created: seq<Created>, errors: seq<string>, sent: seq<Request>)

  function ProfilePath(dp: string, name: Value): string
  {
    ConfigPath(dp, "rsDnsProtProfileTable/" + Str(name))
  }

  function Friendly(d: Dict): Dict
  {
    TranslateTotal(d, BackStep);
    Translate(d, BackStep).value
  }

  /** The quota PUT of a created profile, when there are quotas: the error it adds, if any. */
  function QuotaPhase(b: Batch, name: Value, phase2: Dict, dp: string, net: Net): Batch
  {
    if phase2 == [] then b
    else
      var b1 := b.(sent := b.sent + [Request(PUT, ProfilePath(dp, name), Some(VDict(phase2)))]);
      match net(|b.sent|)
      case Raised(m) => b1.(errors := b1.errors + ["Phase 2 exception for profile " + Str(name) + ": " + m])
      case Returned(r) =>
        if r.status == 200 || r.status == 201 then b1
        else b1.(errors := b1.errors + ["Phase 2 error for profile " + Str(name) + ": HTTP " + IntToString(r.status) + " - " + r.text])
  }

  /** One profile of the loop; `Err` when an exception escapes to the module's outer handler. */
  function ProfileStep(b: Batch, profile: Dict, dp: string, net: Net): Result<Batch>
  {
    var name := GetOr(profile, "name", VNone);
    if !Truthy(name) then Ok(b.(errors := b.errors + ["Profile name is required (use 'name' field)"]))
    else
      var params := GetOr(profile, "params", VDict([]));
      if !params.VDict? then Err(NoItems)
      else match Translate(params.entries, MapStep)
        case Err(m) => Ok(b.(errors := b.errors + ["Validation failed for profile " + Str(name) + ": " + m]))
        case Ok(api) =>
          var p1, p2 := Phase1(api), Phase2(api);
          var b1 := b.(sent := b.sent + [Request(POST, ProfilePath(dp, name),
                                                  Some(VDict(Update([("rsDnsProtProfileName", name)], p1))))]);
          match net(|b.sent|)
          case Raised(m) => Ok(b1.(errors := b1.errors + ["Phase 1 exception for profile " + Str(name) + ": " + m]))
          case Returned(r) =>
            if r.status != 200 && r.status != 201 then
              Ok(b1.(errors := b1.errors + ["Phase 1 error for profile " + Str(name) + ": HTTP " + IntToString(r.status) + " - " + r.text]))
            else
              var b2 := QuotaPhase(b1, name, p2, dp, net);
              Ok(b2.(changed := true, created := b2.created + [Created(name, p1, p2, Friendly(p1), Friendly(p2))]))
  }

  function RunBatch(profiles: seq<Dict>, dp: string, net: Net): Result<Batch>
    decreases |profiles|
  {
    if profiles == [] then Ok(Batch(false, [], [], []))
    else match RunBatch(profiles[..|profiles| - 1], dp, net)
      case Err(m) => Err(m)
      case Ok(b) => ProfileStep(b, profiles[|profiles| - 1], dp, net)
  }

  lemma {:induction false} RunBatchStaysErr(profiles: seq<Dict>, dp: string, net: Net, i: nat)
    requires i <= |profiles| && RunBatch(profiles[..i], dp, net).Err?
    ensures RunBatch(profiles, dp, net) == RunBatch(profiles[..i], dp, net)
    decreases |profiles| - i
  {
    if i < |profiles| {
      assert profiles[..i + 1][..i] == profiles[..i];
      RunBatchStaysErr(profiles, dp, net, i + 1);
    } else {
      assert profiles[..i] == profiles;
    }
  }

  method RunBatchLoop(profiles: seq<Dict>, dp: string, net: Net) returns (r: Result<Batch>)
    ensures r == RunBatch(profiles, dp, net)
  {
    var b := Batch(false, [], [], []);
    var i := 0;
    while i < |profiles|
      invariant 0 <= i <= |profiles|
      invariant RunBatch(profiles[..i], dp, net) == Ok(b)
    {
      assert profiles[..i + 1][..i] == profiles[..i];
      var step := ProfileStep(b, profiles[i], dp, net);
      if step.Err? {
        RunBatchStaysErr(profiles, dp, net, i + 1);
        return step;
      }
      b := step.value;
      i := i + 1;
    }
    assert profiles[..i] == profiles;
    return Ok(b);
  }

  /** Every profile either is created (with at most one quota error) or adds exactly one error
      and is skipped; `changed` is set exactly when some profile was created; at most two
      requests are sent per profile. */
  lemma {:induction false} BatchAccounts(profiles: seq<Dict>, dp: string, net: Net)
    requires RunBatch(profiles, dp, net).Ok?
    ensures var b := RunBatch(profiles, dp, net).value;
      |b.created| <= |profiles| && |profiles| - |b.created| <= |b.errors| <= |profiles| &&
      (b.changed <==> b.created != []) && |b.sent| <= 2 * |profiles|
    decreases |profiles|
  {
    if profiles != [] {
      var init := profiles[..|profiles| - 1];
      BatchAccounts(init, dp, net);
      ProfileStepAccounts(RunBatch(init, dp, net).value, profiles[|profiles| - 1], dp, net);
    }
  }

  /** The quota phase only adds at most one request and at most one error. */
  lemma QuotaPhaseAccounts(b: Batch, name: Value, phase2: Dict, dp: string, net: Net)
    ensures var q := QuotaPhase(b, name, phase2, dp, net);
      q.created == b.created && q.changed == b.changed &&
      |b.errors| <= |q.errors| <= |b.errors| + 1 && |b.sent| <= |q.sent| <= |b.sent| + 1
  {
  }

  /** One profile either adds exactly one error and nothing else, or is created (setting
      `changed`) with at most one error; it sends at most two requests. */
  lemma ProfileStepAccounts(b: Batch, profile: Dict, dp: string, net: Net)
    requires ProfileStep(b, profile, dp, net).Ok?
    ensures var s := ProfileStep(b, profile, dp, net).value;
      ((s.created == b.created && |s.errors| == |b.errors| + 1 && s.changed == b.changed) ||
       (|s.created| == |b.created| + 1 && |b.errors| <= |s.errors| <= |b.errors| + 1 && s.changed)) &&
      |b.sent| <= |s.sent| <= |b.sent| + 2
  {
    var name := GetOr(profile, "name", VNone);
    var params := GetOr(profile, "params", VDict([]));
    if Truthy(name) && params.VDict? && Translate(params.entries, MapStep).Ok? {
      var api := Translate(params.entries, MapStep).value;
      var b1 := b.(sent := b.sent + [Request(POST, ProfilePath(dp, name),
                                              Some(VDict(Update([("rsDnsProtProfileName", name)], Phase1(api)))))]);
      QuotaPhaseAccounts(b1, name, Phase2(api), dp, net);
    }
  }

  // ---------------------------------------------------------------------------------------------
  // The module run
  // ---------------------------------------------------------------------------------------------

  datatype Planned = Planned(profileName: Value, params: Value)

  datatype RunResult =
    | Preview(changed: bool, planned: seq<Planned>, message: string)
    | Applied(failed: bool, msg: string, changed: bool, batch: Batch, attempted: nat)
    | Crashed(msg: string)

  function Plan(profiles: seq<Dict>): seq<Planned>
  {
    seq(|profiles|, i requires 0 <= i < |profiles| =>
      Planned(GetOr(profiles[i], "name", VStr("unnamed_profile")), GetOr(profiles[i], "params", VDict([]))))
  }

  function Run(profiles: seq<Dict>, checkMode: bool, dp: string, net: Net): RunResult
  {
    if checkMode then
      Preview(profiles != [], Plan(profiles), if profiles == [] then "No DNS profiles configured for creation" else "")
    else match RunBatch(profiles, dp, net)
      case Err(m) => Crashed("DNS profile creation failed: " + m)
      case Ok(b) =>
        Applied(b.errors != [],
                if b.errors != [] then "DNS profile creation completed with " + IntToString(|b.errors|) + " error(s)." else "",
                b.changed, b, |profiles|)
  }

  method RunModule(profiles: seq<Dict>, checkMode: bool, dp: string, net: Net) returns (r: RunResult)
    ensures r == Run(profiles, checkMode, dp, net)
  {
    if checkMode {
      return Preview(profiles != [], Plan(profiles), if profiles == [] then "No DNS profiles configured for creation" else "");
    }
    var b := RunBatchLoop(profiles, dp, net);
    if b.Err? {
      return Crashed("DNS profile creation failed: " + b.msg);
    }
    var n := |b.value.errors|;
    r := Applied(n != 0, if n != 0 then "DNS profile creation completed with " + IntToString(n) + " error(s)." else "",
                 b.value.changed, b.value, |profiles|);
  }

  /** Preview sends nothing and reports a change exactly when profiles are listed; an applied
      run fails exactly when some error was recorded and has changed exactly when some profile
      was created. */
  lemma RunOutcome(profiles: seq<Dict>, checkMode: bool, dp: string, net: Net)
    ensures var r := Run(profiles, checkMode, dp, net);
      (checkMode ==> r.Preview? && (r.changed <==> profiles != []) && |r.planned| == |profiles|) &&
      (r.Applied? ==> (r.failed <==> r.batch.errors != []) && (r.changed <==> r.batch.created != []))
  {
    if !checkMode && RunBatch(profiles, dp, net).Ok? {
      BatchAccounts(profiles, dp, net);
    }
  }
}
