/**
 * The translation tables of the language context, one map per language, each
 * the union of the sections the source groups its entries into.
 * Hebrew and Arabic translate only the navigation, hero, features, auth and
 * common sections; every other key exists in English only.
 */
module Translations {

  // English

  const EnNavigation: map<string, string> := map[
    "nav.product" := "Product",
    "nav.howItWorks" := "How it works",
    "nav.forCandidates" := "For Candidates",
    "nav.forCoaches" := "For Coaches",
    "nav.login" := "Log in",
    "nav.getStarted" := "Get started",
    "nav.dashboard" := "Dashboard",
    "nav.sessions" := "Sessions",
    "nav.reports" := "Reports",
    "nav.profile" := "Profile",
    "nav.scenarios" := "Scenarios",
    "nav.candidates" := "Candidates",
    "nav.analytics" := "Analytics",
    "nav.settings" := "Settings",
    "nav.logout" := "Log out"
  ]

  const EnHero: map<string, string> := map[
    "hero.title" := "Practice real job interviews with an AI coach",
    "hero.subtitle" := "Get personalized interview questions based on your CV and target role. Practice in your language with realistic voice-based sessions and receive detailed feedback.",
    "hero.cta.primary" := "Start practicing",
    "hero.cta.secondary" := "For coaches & institutions",
    "hero.badge" := "AI-Powered Interview Preparation"
  ]

  const EnFeatures: map<string, string> := map[
    "features.title" := "How it works",
    "features.step1.title" := "Upload your CV & job description",
    "features.step1.desc" := "Share your resume and the role you're targeting for personalized questions.",
    "features.step2.title" := "AI generates tailored questions",
    "features.step2.desc" := "Our AI analyzes your profile to create relevant interview scenarios.",
    "features.step3.title" := "Practice with voice interviews",
    "features.step3.desc" := "Speak your answers naturally. We support English, Hebrew, and Arabic.",
    "features.step4.title" := "Get detailed feedback",
    "features.step4.desc" := "Receive comprehensive analysis with suggested improved answers."
  ]

  const EnForCandidates: map<string, string> := map[
    "candidates.title" := "For Candidates",
    "candidates.subtitle" := "Build confidence with realistic practice",
    "candidates.benefit1" := "Personalized questions from your actual CV",
    "candidates.benefit2" := "Multilingual support with code-switching",
    "candidates.benefit3" := "Detailed feedback after each session",
    "candidates.benefit4" := "Track your improvement over time"
  ]

  const EnForCoaches: map<string, string> := map[
    "coaches.title" := "For Coaches & Institutions",
    "coaches.subtitle" := "Scale your training programs",
    "coaches.benefit1" := "Create custom interview scenarios",
    "coaches.benefit2" := "Track candidate progress in real-time",
    "coaches.benefit3" := "Review detailed session reports",
    "coaches.benefit4" := "Scalable training for any group size"
  ]

  const EnAuth: map<string, string> := map[
    "auth.login.title" := "Welcome back",
    "auth.login.subtitle" := "Sign in to continue your interview practice",
    "auth.signup.title" := "Create your account",
    "auth.signup.subtitle" := "Start practicing interviews with AI today",
    "auth.google" := "Continue with Google",
    "auth.email" := "Email address",
    "auth.password" := "Password",
    "auth.signin" := "Sign in",
    "auth.signup" := "Sign up",
    "auth.noAccount" := "Don't have an account?",
    "auth.hasAccount" := "Already have an account?",
    "auth.or" := "or"
  ]

  const EnDashboard: map<string, string> := map[
    "dashboard.welcome" := "Welcome back",
    "dashboard.uploadCv" := "Upload CV & Job Description",
    "dashboard.startInterview" := "Start a New Interview",
    "dashboard.viewReports" := "View Past Sessions",
    "dashboard.lastSession" := "Last Session",
    "dashboard.noSessions" := "No sessions yet"
  ]

  const EnUpload: map<string, string> := map[
    "upload.title" := "Upload Your Documents",
    "upload.cv.title" := "Upload CV",
    "upload.cv.desc" := "Drag and drop or click to upload",
    "upload.cv.formats" := "PDF, DOCX up to 5MB",
    "upload.jd.title" := "Job Description",
    "upload.jd.placeholder" := "Paste the job description here...",
    "upload.jd.optional" := "Optional fields",
    "upload.jobTitle" := "Job Title",
    "upload.company" := "Company",
    "upload.industry" := "Industry",
    "upload.experience" := "Experience Level",
    "upload.continue" := "Save and continue"
  ]

  const EnInterview: map<string, string> := map[
    "interview.config.title" := "Configure Your Interview",
    "interview.selectCv" := "Select CV",
    "interview.selectJd" := "Select Job Description",
    "interview.type" := "Interview Type",
    "interview.type.behavioral" := "Behavioral",
    "interview.type.technical" := "Technical",
    "interview.type.mixed" := "Mixed",
    "interview.language" := "Language",
    "interview.scenario" := "Scenario",
    "interview.questions" := "questions",
    "interview.duration" := "Estimated duration",
    "interview.start" := "Start interview",
    "interview.micRequired" := "Microphone access required"
  ]

  const EnLiveInterview: map<string, string> := map[
    "live.listening" := "Listening...",
    "live.processing" := "Processing...",
    "live.speak" := "Click to speak",
    "live.pause" := "Pause",
    "live.resume" := "Resume",
    "live.repeat" := "Repeat question",
    "live.end" := "End session",
    "live.question" := "Question",
    "live.of" := "of",
    "live.transcript" := "Your answer",
    "live.languages" := "Detected languages"
  ]

  const EnFeedback: map<string, string> := map[
    "feedback.title" := "Interview Report",
    "feedback.overall" := "Overall Score",
    "feedback.content" := "Content Relevance",
    "feedback.communication" := "Communication",
    "feedback.technical" := "Technical Accuracy",
    "feedback.confidence" := "Confidence",
    "feedback.structure" := "Structured Thinking",
    "feedback.strengths" := "Strengths",
    "feedback.improvements" := "Areas for Improvement",
    "feedback.suggested" := "Suggested Improved Answer",
    "feedback.download" := "Download PDF Report",
    "feedback.practiceAgain" := "Practice Again"
  ]

  const EnCoach: map<string, string> := map[
    "coach.dashboard.title" := "Coach Dashboard",
    "coach.activeCandidates" := "Active Candidates",
    "coach.scenarios" := "Interview Scenarios",
    "coach.recentSessions" := "Recent Sessions",
    "coach.createScenario" := "Create New Scenario",
    "coach.scenario.name" := "Scenario Name",
    "coach.scenario.description" := "Description",
    "coach.scenario.targetRole" := "Target Role",
    "coach.scenario.industry" := "Industry",
    "coach.scenario.experience" := "Experience Level",
    "coach.scenario.language" := "Language",
    "coach.scenario.questions" := "Number of Questions",
    "coach.scenario.duration" := "Estimated Duration",
    "coach.scenario.public" := "Make Public",
    "coach.scenario.save" := "Save Scenario",
    "coach.candidates.title" := "Manage Candidates",
    "coach.candidates.invite" := "Invite Candidate",
    "coach.candidates.status" := "Status",
    "coach.candidates.lastSession" := "Last Session",
    "coach.candidates.completed" := "Completed"
  ]

  const EnCommon: map<string, string> := map[
    "common.loading" := "Loading...",
    "common.save" := "Save",
    "common.cancel" := "Cancel",
    "common.delete" := "Delete",
    "common.edit" := "Edit",
    "common.back" := "Back",
    "common.next" := "Next",
    "common.minutes" := "minutes"
  ]

  const En: map<string, string> :=
    EnNavigation + EnHero + EnFeatures + EnForCandidates
    + EnForCoaches + EnAuth + EnDashboard + EnUpload
    + EnInterview + EnLiveInterview + EnFeedback + EnCoach
    + EnCommon

  // Hebrew

  const HeNavigation: map<string, string> := map[
    "nav.product" := "מוצר",
    "nav.howItWorks" := "איך זה עובד",
    "nav.forCandidates" := "למועמדים",
    "nav.forCoaches" := "למאמנים",
    "nav.login" := "התחברות",
    "nav.getStarted" := "התחל עכשיו",
    "nav.dashboard" := "לוח בקרה",
    "nav.sessions" := "פגישות",
    "nav.reports" := "דוחות",
    "nav.profile" := "פרופיל",
    "nav.scenarios" := "תרחישים",
    "nav.candidates" := "מועמדים",
    "nav.analytics" := "ניתוחים",
    "nav.settings" := "הגדרות",
    "nav.logout" := "התנתקות"
  ]

  const HeHero: map<string, string> := map[
    "hero.title" := "תרגול ראיונות עבודה עם מאמן AI",
    "hero.subtitle" := "קבל שאלות ראיון מותאמות אישית לקורות החיים שלך ולתפקיד המבוקש. תרגל בשפה שלך עם סשנים קוליים ריאליסטיים וקבל משוב מפורט.",
    "hero.cta.primary" := "התחל לתרגל",
    "hero.cta.secondary" := "למאמנים ומוסדות",
    "hero.badge" := "הכנה לראיונות מבוססת AI"
  ]

  const HeFeatures: map<string, string> := map[
    "features.title" := "איך זה עובד",
    "features.step1.title" := "העלה קורות חיים ותיאור משרה",
    "features.step1.desc" := "שתף את קורות החיים שלך ואת התפקיד אליו אתה שואף לשאלות מותאמות.",
    "features.step2.title" := "AI יוצר שאלות מותאמות",
    "features.step2.desc" := "ה-AI שלנו מנתח את הפרופיל שלך כדי ליצור תרחישי ראיון רלוונטיים.",
    "features.step3.title" := "תרגל עם ראיונות קוליים",
    "features.step3.desc" := "דבר את התשובות שלך בטבעיות. אנחנו תומכים באנגלית, עברית וערבית.",
    "features.step4.title" := "קבל משוב מפורט",
    "features.step4.desc" := "קבל ניתוח מקיף עם הצעות לתשובות משופרות."
  ]

  const HeAuth: map<string, string> := map[
    "auth.login.title" := "ברוך שובך",
    "auth.login.subtitle" := "התחבר כדי להמשיך לתרגל ראיונות",
    "auth.signup.title" := "צור חשבון",
    "auth.signup.subtitle" := "התחל לתרגל ראיונות עם AI היום",
    "auth.google" := "המשך עם Google",
    "auth.email" := "כתובת אימייל",
    "auth.password" := "סיסמה",
    "auth.signin" := "התחבר",
    "auth.signup" := "הירשם",
    "auth.noAccount" := "אין לך חשבון?",
    "auth.hasAccount" := "כבר יש לך חשבון?",
    "auth.or" := "או"
  ]

  const HeCommon: map<string, string> := map[
    "common.loading" := "טוען...",
    "common.save" := "שמור",
    "common.cancel" := "ביטול",
    "common.minutes" := "דקות"
  ]

  const He: map<string, string> :=
    HeNavigation + HeHero + HeFeatures + HeAuth
    + HeCommon

  // Arabic

  const ArNavigation: map<string, string> := map[
    "nav.product" := "المنتج",
    "nav.howItWorks" := "كيف يعمل",
    "nav.forCandidates" := "للمرشحين",
    "nav.forCoaches" := "للمدربين",
    "nav.login" := "تسجيل الدخول",
    "nav.getStarted" := "ابدأ الآن",
    "nav.dashboard" := "لوحة التحكم",
    "nav.sessions" := "الجلسات",
    "nav.reports" := "التقارير",
    "nav.profile" := "الملف الشخصي",
    "nav.scenarios" := "السيناريوهات",
    "nav.candidates" := "المرشحين",
    "nav.analytics" := "التحليلات",
    "nav.settings" := "الإعدادات",
    "nav.logout" := "تسجيل الخروج"
  ]

  const ArHero: map<string, string> := map[
    "hero.title" := "تدرب على مقابلات العمل مع مدرب AI",
    "hero.subtitle" := "احصل على أسئلة مقابلة مخصصة بناءً على سيرتك الذاتية والدور المستهدف. تدرب بلغتك مع جلسات صوتية واقعية واحصل على ملاحظات مفصلة.",
    "hero.cta.primary" := "ابدأ التدريب",
    "hero.cta.secondary" := "للمدربين والمؤسسات",
    "hero.badge" := "إعداد المقابلات بالذكاء الاصطناعي"
  ]

  const ArFeatures: map<string, string> := map[
    "features.title" := "كيف يعمل",
    "features.step1.title" := "حمّل سيرتك الذاتية ووصف الوظيفة",
    "features.step1.desc" := "شارك سيرتك الذاتية والدور المستهدف للحصول على أسئلة مخصصة.",
    "features.step2.title" := "AI يُنشئ أسئلة مخصصة",
    "features.step2.desc" := "يحلل الذكاء الاصطناعي ملفك لإنشاء سيناريوهات مقابلة ذات صلة.",
    "features.step3.title" := "تدرب مع مقابلات صوتية",
    "features.step3.desc" := "تحدث بإجاباتك بشكل طبيعي. نحن ندعم الإنجليزية والعبرية والعربية.",
    "features.step4.title" := "احصل على ملاحظات مفصلة",
    "features.step4.desc" := "احصل على تحليل شامل مع اقتراحات لإجابات محسنة."
  ]

  const ArAuth: map<string, string> := map[
    "auth.login.title" := "مرحباً بعودتك",
    "auth.login.subtitle" := "سجّل الدخول لمتابعة تدريب المقابلات",
    "auth.signup.title" := "أنشئ حسابك",
    "auth.signup.subtitle" := "ابدأ تدريب المقابلات مع AI اليوم",
    "auth.google" := "المتابعة مع Google",
    "auth.email" := "البريد الإلكتروني",
    "auth.password" := "كلمة المرور",
    "auth.signin" := "تسجيل الدخول",
    "auth.signup" := "التسجيل",
    "auth.noAccount" := "ليس لديك حساب؟",
    "auth.hasAccount" := "لديك حساب بالفعل؟",
    "auth.or" := "أو"
  ]

  const ArCommon: map<string, string> := map[
    "common.loading" := "جاري التحميل...",
    "common.save" := "حفظ",
    "common.cancel" := "إلغاء",
    "common.minutes" := "دقائق"
  ]

  const Ar: map<string, string> :=
    ArNavigation + ArHero + ArFeatures + ArAuth
    + ArCommon

  // Every key of the Hebrew and Arabic tables is a key of the English table,
  // section by section.

  lemma HebrewNavigationInEnglish() ensures HeNavigation.Keys <= EnNavigation.Keys {}
  lemma HebrewHeroInEnglish() ensures HeHero.Keys <= EnHero.Keys {}
  lemma HebrewFeaturesInEnglish() ensures HeFeatures.Keys <= EnFeatures.Keys {}
  lemma HebrewAuthInEnglish() ensures HeAuth.Keys <= EnAuth.Keys {}
  lemma HebrewCommonInEnglish() ensures HeCommon.Keys <= EnCommon.Keys {}

  lemma ArabicNavigationInEnglish() ensures ArNavigation.Keys <= EnNavigation.Keys {}
  lemma ArabicHeroInEnglish() ensures ArHero.Keys <= EnHero.Keys {}
  lemma ArabicFeaturesInEnglish() ensures ArFeatures.Keys <= EnFeatures.Keys {}
  lemma ArabicAuthInEnglish() ensures ArAuth.Keys <= EnAuth.Keys {}
  lemma ArabicCommonInEnglish() ensures ArCommon.Keys <= EnCommon.Keys {}

  /** Every Hebrew key has an English entry. */
  lemma HebrewKeysInEnglish()
    ensures He.Keys <= En.Keys
  {
    HebrewNavigationInEnglish();
    HebrewHeroInEnglish();
    HebrewFeaturesInEnglish();
    HebrewAuthInEnglish();
    HebrewCommonInEnglish();
  }

  /** Every Arabic key has an English entry. */
  lemma ArabicKeysInEnglish()
    ensures Ar.Keys <= En.Keys
  {
    ArabicNavigationInEnglish();
    ArabicHeroInEnglish();
    ArabicFeaturesInEnglish();
    ArabicAuthInEnglish();
    ArabicCommonInEnglish();
  }

  // Every English value is a non-empty string, so an English entry is never
  // skipped by the truthiness test of the lookup chain.

  /** Every value of the table is a non-empty string. */
  ghost predicate NonEmptyValues(table: map<string, string>) {
    forall k | k in table :: table[k] != ""
  }

  lemma EnglishNavigationNonEmpty() ensures NonEmptyValues(EnNavigation) {}
  lemma EnglishHeroNonEmpty() ensures NonEmptyValues(EnHero) {}
  lemma EnglishFeaturesNonEmpty() ensures NonEmptyValues(EnFeatures) {}
  lemma EnglishForCandidatesNonEmpty() ensures NonEmptyValues(EnForCandidates) {}
  lemma EnglishForCoachesNonEmpty() ensures NonEmptyValues(EnForCoaches) {}
  lemma EnglishAuthNonEmpty() ensures NonEmptyValues(EnAuth) {}
  lemma EnglishDashboardNonEmpty() ensures NonEmptyValues(EnDashboard) {}
  lemma EnglishUploadNonEmpty() ensures NonEmptyValues(EnUpload) {}
  lemma EnglishInterviewNonEmpty() ensures NonEmptyValues(EnInterview) {}
  lemma EnglishLiveInterviewNonEmpty() ensures NonEmptyValues(EnLiveInterview) {}
  lemma EnglishFeedbackNonEmpty() ensures NonEmptyValues(EnFeedback) {}
  lemma EnglishCoachNonEmpty() ensures NonEmptyValues(EnCoach) {}
  lemma EnglishCommonNonEmpty() ensures NonEmptyValues(EnCommon) {}

  /** A union of tables with non-empty values has non-empty values. */
  lemma NonEmptyUnion(a: map<string, string>, b: map<string, string>)
    requires NonEmptyValues(a) && NonEmptyValues(b)
    ensures NonEmptyValues(a + b)
  {
  }

  lemma EnglishNonEmpty()
    ensures NonEmptyValues(En)
  {
    EnglishNavigationNonEmpty();
    EnglishHeroNonEmpty();
    EnglishFeaturesNonEmpty();
    EnglishForCandidatesNonEmpty();
    EnglishForCoachesNonEmpty();
    EnglishAuthNonEmpty();
    EnglishDashboardNonEmpty();
    EnglishUploadNonEmpty();
    EnglishInterviewNonEmpty();
    EnglishLiveInterviewNonEmpty();
    EnglishFeedbackNonEmpty();
    EnglishCoachNonEmpty();
    EnglishCommonNonEmpty();
    NonEmptyUnion(EnNavigation, EnHero);
    NonEmptyUnion(EnNavigation + EnHero, EnFeatures);
    NonEmptyUnion(EnNavigation + EnHero + EnFeatures, EnForCandidates);
    NonEmptyUnion(EnNavigation + EnHero + EnFeatures + EnForCandidates, EnForCoaches);
    NonEmptyUnion(EnNavigation + EnHero + EnFeatures + EnForCandidates + EnForCoaches, EnAuth);
    NonEmptyUnion(EnNavigation + EnHero + EnFeatures + EnForCandidates + EnForCoaches + EnAuth, EnDashboard);
    NonEmptyUnion(EnNavigation + EnHero + EnFeatures + EnForCandidates + EnForCoaches + EnAuth + EnDashboard, EnUpload);
    NonEmptyUnion(EnNavigation + EnHero + EnFeatures + EnForCandidates + EnForCoaches + EnAuth + EnDashboard + EnUpload, EnInterview);
    NonEmptyUnion(EnNavigation + EnHero + EnFeatures + EnForCandidates + EnForCoaches + EnAuth + EnDashboard + EnUpload + EnInterview, EnLiveInterview);
    NonEmptyUnion(EnNavigation + EnHero + EnFeatures + EnForCandidates + EnForCoaches + EnAuth + EnDashboard + EnUpload + EnInterview + EnLiveInterview, EnFeedback);
    NonEmptyUnion(EnNavigation + EnHero + EnFeatures + EnForCandidates + EnForCoaches + EnAuth + EnDashboard + EnUpload + EnInterview + EnLiveInterview + EnFeedback, EnCoach);
    NonEmptyUnion(EnNavigation + EnHero + EnFeatures + EnForCandidates + EnForCoaches + EnAuth + EnDashboard + EnUpload + EnInterview + EnLiveInterview + EnFeedback + EnCoach, EnCommon);
  }

  /** The `translations` record: one table per language. */
  datatype Tables = Tables(en: map<string, string>, he: map<string, string>, ar: map<string, string>)

  const All: Tables := Tables(En, He, Ar)

  /**
   * What the lookup chain relies on: no English value is empty, and every
   * Hebrew and Arabic key is also an English key.
   */
  ghost predicate WellFormed(t: Tables) {
    NonEmptyValues(t.en) && t.he.Keys <= t.en.Keys && t.ar.Keys <= t.en.Keys
  }

  lemma AllWellFormed()
    ensures WellFormed(All)
  {
    EnglishNonEmpty();
    HebrewKeysInEnglish();
    ArabicKeysInEnglish();
  }
}
